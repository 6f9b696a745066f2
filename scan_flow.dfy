/**
 * The scan session of src/Scanner.tsx as values: the session fields, one
 * function per handler, the UI gestures that the screens offer in each state
 * (the disabled buttons and per-state rendering), and the properties of whole
 * sessions: which states are reachable with which fields, when onScan is
 * called, and that one session calls it at most once.
 */
module ScanFlow {
  import opened Types
  import opened Text
  import Seqs

  datatype ScanState = Idle | ActionSelect | Checklist | TruckSelect | PhotoProof | Signature | Success | Error

  /** The Scanner component's session state (src/Scanner.tsx:26-35), camera settings aside. */
  datatype Session = Session(
    state: ScanState,
    scanned: bool,
    scannedOrder: Option<Order>,
    selectedAction: Option<ScanAction>,
    selectedTruckId: string,
    proofImages: seq<string>,
    signature: string,
    checkedItems: set<nat>,
    manualInput: string,
    feedbackMessage: string)

  /** A handler's new session and the onScan call it made, if any. */
  datatype Effect = Effect(session: Session, call: Option<ScanCall>)

  /** The fixed location passed with every successful scan. */
  const MOCK_GPS: string := "3.1390° N, 101.6869° E"

  /** The text the signature pad stores when the driver marks the job as signed. */
  const SIGNED: string := "signed"

  /** The values resetScanner assigns, which are also the component's initial values. */
  function ResetScanner(): Session
  {
    Session(Idle, false, None, None, "", [], "", {}, "", "")
  }

  predicate Terminal(s: Session)
  {
    s.state == Success || s.state == ScanState.Error
  }

  // ------------------------------------------------------------------ lookup

  /** The comparison of handleScan: trimmed, upper-cased order id against trimmed, upper-cased code. */
  predicate Matches(o: Order, code: string)
  {
    Normalize(o.id) == Normalize(code)
  }

  /** `orders.find(...)` with the comparison of handleScan, as the index of the first matching order. */
  function FindOrder(orders: seq<Order>, code: string): (r: Option<nat>)
    ensures r.Some? ==> r.value < |orders| && Matches(orders[r.value], code)
    ensures r.Some? ==> forall j :: 0 <= j < r.value ==> !Matches(orders[j], code)
    ensures r.None? <==> forall j :: 0 <= j < |orders| ==> !Matches(orders[j], code)
  {
    Seqs.FindIndex(orders, (o: Order) => Matches(o, code))
  }

  function NotFoundMessage(code: string): string
  {
    "Order \"" + code + "\" not found."
  }

  /** `orders.find(...)` itself: the first order whose id matches the code. */
  function LookupOrder(orders: seq<Order>, code: string): Option<Order>
  {
    match FindOrder(orders, code)
    case None => None
    case Some(k) => Some(orders[k])
  }

  /** handleScan: look the code up; on a hit capture the order, otherwise show an error. */
  function HandleScan(s: Session, code: string, orders: seq<Order>): Session
  {
    match LookupOrder(orders, code)
    case None => s.(state := ScanState.Error, feedbackMessage := NotFoundMessage(code))
    case Some(o) => s.(scannedOrder := Some(o), state := ActionSelect)
  }

  /**
   * A lookup succeeds exactly when some order's normalized id equals the normalized
   * code, and then captures the first such order; otherwise it shows the not-found
   * message and keeps the previous order. Nothing else in the session changes.
   */
  lemma LookupSpec(s: Session, code: string, orders: seq<Order>)
    ensures var r := HandleScan(s, code, orders);
      && (r.state == ActionSelect <==> exists i :: 0 <= i < |orders| && Matches(orders[i], code))
      && (r.state == ActionSelect ==>
            exists i :: 0 <= i < |orders| && r.scannedOrder == Some(orders[i]) && Matches(orders[i], code)
              && forall j :: 0 <= j < i ==> !Matches(orders[j], code))
      && (r.state != ActionSelect ==>
            r.state == ScanState.Error && r.feedbackMessage == NotFoundMessage(code) && r.scannedOrder == s.scannedOrder)
      && r.(state := s.state, scannedOrder := s.scannedOrder, feedbackMessage := s.feedbackMessage) == s
  {
    var f := FindOrder(orders, code);
    if f.Some? {
      var k := f.value;
      assert 0 <= k < |orders| && HandleScan(s, code, orders).scannedOrder == Some(orders[k])
        && Matches(orders[k], code) && forall j :: 0 <= j < k ==> !Matches(orders[j], code);
    }
  }

  /**
   * handleBarCodeScanned: the `scanned` latch lets only the first decode through, and
   * that decode is looked up as handleScan does.
   */
  function HandleBarCodeScanned(s: Session, data: string, orders: seq<Order>): (r: Session)
    ensures s.scanned ==> r == s
    ensures r.scanned
    ensures !s.scanned ==> (r.state == ActionSelect <==> FindOrder(orders, data).Some?)
    ensures !s.scanned && FindOrder(orders, data).Some? ==>
      r.scannedOrder == Some(orders[FindOrder(orders, data).value])
    ensures !s.scanned && FindOrder(orders, data).None? ==>
      r.state == ScanState.Error && r.feedbackMessage == NotFoundMessage(data) && r.scannedOrder == s.scannedOrder
    ensures r.(state := s.state, scannedOrder := s.scannedOrder, feedbackMessage := s.feedbackMessage, scanned := s.scanned) == s
  {
    if s.scanned then s else HandleScan(s.(scanned := true), data, orders)
  }

  /** After one decode, every further decode of the same session is ignored. */
  lemma LatchAdmitsOneDecode(s: Session, first: string, second: string, orders: seq<Order>)
    ensures var t := HandleBarCodeScanned(s, first, orders);
      HandleBarCodeScanned(t, second, orders) == t
  {
  }

  /** handleManualScan: blank input is ignored; otherwise the trimmed input is looked up and cleared. */
  function HandleManualScan(s: Session, orders: seq<Order>): (r: Session)
    ensures AllWhitespace(s.manualInput) ==> r == s
    ensures !AllWhitespace(s.manualInput) ==> r.manualInput == ""
  {
    TrimEmptyIffBlank(s.manualInput);
    if Trim(s.manualInput) == "" then s
    else HandleScan(s, Trim(s.manualInput), orders).(manualInput := "")
  }

  /**
   * Typing a code finds the same order as decoding it from a QR label:
   * the extra trim of the manual path never changes which order is found.
   */
  lemma ManualScanFindsSameOrder(s: Session, orders: seq<Order>)
    requires !AllWhitespace(s.manualInput)
    ensures var m := HandleManualScan(s, orders);
      var c := HandleScan(s, s.manualInput, orders);
      m.state == c.state && m.scannedOrder == c.scannedOrder
  {
    TrimEmptyIffBlank(s.manualInput);
    NormalizeTrim(s.manualInput);
    var t := Trim(s.manualInput);
    assert forall o :: Matches(o, t) == Matches(o, s.manualInput);
    SameKeySameFind(orders, t, s.manualInput);
  }

  lemma SameKeySameFind(orders: seq<Order>, a: string, b: string)
    requires Normalize(a) == Normalize(b)
    ensures FindOrder(orders, a) == FindOrder(orders, b)
  {
    Seqs.FindIndexAgree(orders, (o: Order) => Matches(o, a), (o: Order) => Matches(o, b));
  }

  // ----------------------------------------------------------- the wizard

  function HandleActionSelect(s: Session, action: ScanAction): Session
  {
    s.(selectedAction := Some(action), state := Checklist)
  }

  /** handleChecklistComplete: trucks are chosen only for a LOAD. */
  function HandleChecklistComplete(s: Session): Session
  {
    s.(state := if s.selectedAction == Some(Load) then TruckSelect else PhotoProof)
  }

  /** Flips the membership of exactly one index. */
  function Toggle(checked: set<nat>, index: nat): (r: set<nat>)
    ensures index in r <==> index !in checked
    ensures forall j :: j != index ==> (j in r <==> j in checked)
  {
    if index in checked then checked - {index} else checked + {index}
  }

  /** Toggling an item twice restores the checklist. */
  lemma ToggleTwice(checked: set<nat>, index: nat)
    ensures Toggle(Toggle(checked, index), index) == checked
  {
  }

  function ToggleItemCheck(s: Session, index: nat): Session
  {
    s.(checkedItems := Toggle(s.checkedItems, index))
  }

  /** `trucks.find(t => t.id === id)`, as the index of the first truck with that id. */
  function FindTruck(trucks: seq<Truck>, id: string): (r: Option<nat>)
    ensures r.Some? ==> r.value < |trucks| && trucks[r.value].id == id
    ensures r.Some? ==> forall j :: 0 <= j < r.value ==> trucks[j].id != id
    ensures r.None? <==> forall j :: 0 <= j < |trucks| ==> trucks[j].id != id
  {
    Seqs.FindIndex(trucks, (t: Truck) => t.id == id)
  }

  /** `correctTruck?.name || expectedTruckId`: the truck's name, or its id when unknown or unnamed. */
  function ExpectedTruckLabel(expected: string, trucks: seq<Truck>): (r: string)
    ensures r == expected || exists i :: (0 <= i < |trucks| && trucks[i].id == expected
      && (forall j :: 0 <= j < i ==> trucks[j].id != expected) && trucks[i].name != "" && r == trucks[i].name)
    ensures (forall j :: 0 <= j < |trucks| ==> trucks[j].id != expected) ==> r == expected
    ensures forall i :: (0 <= i < |trucks| && trucks[i].id == expected
                           && forall j :: 0 <= j < i ==> trucks[j].id != expected) ==>
      (trucks[i].name != "" ==> r == trucks[i].name) && (trucks[i].name == "" ==> r == expected)
  {
    match FindTruck(trucks, expected)
    case Some(k) => if trucks[k].name != "" then trucks[k].name else expected
    case None => expected
  }

  function WrongTruckMessage(expected: string, trucks: seq<Truck>): string
  {
    "WRONG TRUCK! Goes to " + ExpectedTruckLabel(expected, trucks)
  }

  /**
   * handleTruckSelect: a truck other than the expected one ends the session in ERROR
   * and reports one non-matching LOAD; the expected truck moves on to the photos
   * and reports nothing yet.
   */
  function HandleTruckSelect(s: Session, truckId: string, trucks: seq<Truck>): (r: Effect)
    ensures s.scannedOrder.None? ==> r == Effect(s, None)
    ensures s.scannedOrder.Some? ==> r.session.selectedTruckId == truckId
    ensures s.scannedOrder.Some? ==>
      (r.call.Some? <==> s.scannedOrder.value.expectedTruckId != truckId)
    ensures r.call.Some? ==>
      r.call.value == ScanCall(s.scannedOrder.value.id, Load, false, Some(truckId), None, None, None)
      && r.session.state == ScanState.Error
      && r.session.feedbackMessage == WrongTruckMessage(s.scannedOrder.value.expectedTruckId, trucks)
    ensures s.scannedOrder.Some? && r.call.None? ==> r.session.state == PhotoProof
    ensures r.session.(state := s.state, selectedTruckId := s.selectedTruckId, feedbackMessage := s.feedbackMessage) == s
  {
    if s.scannedOrder.None? then Effect(s, None)
    else
      var o := s.scannedOrder.value;
      var s1 := s.(selectedTruckId := truckId);
      if o.expectedTruckId != truckId then
        Effect(s1.(state := ScanState.Error, feedbackMessage := WrongTruckMessage(o.expectedTruckId, trucks)),
          Some(ScanCall(o.id, Load, false, Some(truckId), None, None, None)))
      else
        Effect(s1.(state := PhotoProof), None)
  }

  function BackToAction(s: Session): Session
  {
    s.(state := ActionSelect)
  }

  /** A captured photo, as an opaque reference appended to the list. */
  function TakePhoto(s: Session, uri: string): Session
  {
    s.(proofImages := s.proofImages + [uri])
  }

  /** removePhoto: drops exactly the photo at `index`, keeping the others in order. */
  function RemovePhoto(s: Session, index: nat): (r: Session)
    ensures index < |s.proofImages| ==>
      |r.proofImages| == |s.proofImages| - 1
      && (forall j :: 0 <= j < index ==> r.proofImages[j] == s.proofImages[j])
      && (forall j :: index <= j < |r.proofImages| ==> r.proofImages[j] == s.proofImages[j + 1])
    ensures index >= |s.proofImages| ==> r == s
    ensures r.(proofImages := s.proofImages) == s
  {
    s.(proofImages := Seqs.RemoveAt(s.proofImages, index))
  }

  function HandlePhotoComplete(s: Session): Session
  {
    s.(state := Signature)
  }

  function MarkSigned(s: Session): Session
  {
    s.(signature := SIGNED)
  }

  /**
   * handleSignatureComplete: the commit point. With an order and an action it makes
   * one matching onScan call and ends in SUCCESS; otherwise it does nothing.
   */
  function HandleSignatureComplete(s: Session): (r: Effect)
    ensures s.scannedOrder.None? || s.selectedAction.None? ==> r == Effect(s, None)
    ensures s.scannedOrder.Some? && s.selectedAction.Some? ==>
      r.session.state == Success && r.call.Some?
      && r.session.feedbackMessage == ActionName(s.selectedAction.value) + " Complete!"
    ensures r.call.Some? ==>
      var c := r.call.value;
      c.orderId == s.scannedOrder.value.id && c.action == s.selectedAction.value && c.isMatch
      && (c.truckId.Some? <==> c.action == Load)
      && (c.truckId.Some? ==> c.truckId.value == s.selectedTruckId)
      && (c.proofImages.None? <==> s.proofImages == [])
      && (c.proofImages.Some? ==> c.proofImages.value == s.proofImages)
      && c.gps == Some(MOCK_GPS) && c.signature == Some(s.signature)
    ensures r.session.(state := s.state, feedbackMessage := s.feedbackMessage) == s
  {
    if s.scannedOrder.None? || s.selectedAction.None? then Effect(s, None)
    else
      var a := s.selectedAction.value;
      Effect(
        s.(feedbackMessage := ActionName(a) + " Complete!", state := Success),
        Some(ScanCall(s.scannedOrder.value.id, a, true,
          if a == Load then Some(s.selectedTruckId) else None,
          if |s.proofImages| > 0 then Some(s.proofImages) else None,
          Some(MOCK_GPS), Some(s.signature))))
  }

  // ------------------------------------------------------- gestures and runs

  /** What the user can do on the screen that each state renders. */
  datatype Event =
    | CameraDecode(data: string)  // the camera decoded a QR code
    | TypeManual(text: string)    // the manual-entry text changed
    | PressGo                     // GO button or keyboard submit
    | PressSimulate(pick: nat)    // "Simulate Scan", with the random pick as a parameter
    | PressAction(action: ScanAction)
    | PressCancel                 // the close button on the order screen
    | PressItem(index: nat)       // a checklist row
    | PressConfirm                // "Confirm & Continue"
    | PressTruck(pick: nat)       // a truck row
    | PressBack                   // "Back to Action"
    | PhotoTaken(uri: string)     // the camera returned a photo
    | PressDeletePhoto(index: nat)
    | PressContinue               // "Continue to Signature"
    | PressMarkSigned
    | PressSubmit                 // "Submit Final"
    | TimerFired                  // the three-second timer of SUCCESS and ERROR

  /** An event that starts a new session: the timer and the close button both reset. */
  predicate Resets(ev: Event)
  {
    ev.TimerFired? || ev.PressCancel?
  }

  /** Whether the current screen offers the gesture, and with its button enabled. */
  predicate Enabled(s: Session, ev: Event, orders: seq<Order>, trucks: seq<Truck>)
  {
    match ev
    case CameraDecode(_) => s.state == Idle && !s.scanned
    case TypeManual(_) => s.state == Idle
    case PressGo => s.state == Idle
    case PressSimulate(k) => s.state == Idle && (k < |orders| || (|orders| == 0 && k == 0))
    case PressAction(_) => s.state == ActionSelect && s.scannedOrder.Some?
    case PressCancel => s.state == ActionSelect && s.scannedOrder.Some?
    case PressItem(i) => s.state == Checklist && s.scannedOrder.Some? && i < |s.scannedOrder.value.items|
    case PressConfirm =>
      s.state == Checklist && s.scannedOrder.Some? && |s.checkedItems| == |s.scannedOrder.value.items|
    case PressTruck(k) => s.state == TruckSelect && k < |trucks|
    case PressBack => s.state == TruckSelect
    case PhotoTaken(_) => s.state == PhotoProof
    case PressDeletePhoto(i) => s.state == PhotoProof && i < |s.proofImages|
    case PressContinue => s.state == PhotoProof && |s.proofImages| > 0
    case PressMarkSigned => s.state == Signature
    case PressSubmit => s.state == Signature && s.signature != ""
    case TimerFired => Terminal(s)
  }

  /** The handler each gesture invokes. */
  function Apply(s: Session, ev: Event, orders: seq<Order>, trucks: seq<Truck>): Effect
  {
    match ev
    case CameraDecode(d) => Effect(HandleBarCodeScanned(s, d, orders), None)
    case TypeManual(t) => Effect(s.(manualInput := t), None)
    case PressGo => Effect(HandleManualScan(s, orders), None)
    case PressSimulate(k) => Effect(if k < |orders| then HandleScan(s, orders[k].id, orders) else s, None)
    case PressAction(a) => Effect(HandleActionSelect(s, a), None)
    case PressCancel => Effect(ResetScanner(), None)
    case PressItem(i) => Effect(ToggleItemCheck(s, i), None)
    case PressConfirm => Effect(HandleChecklistComplete(s), None)
    case PressTruck(k) => if k < |trucks| then HandleTruckSelect(s, trucks[k].id, trucks) else Effect(s, None)
    case PressBack => Effect(BackToAction(s), None)
    case PhotoTaken(uri) => Effect(TakePhoto(s, uri), None)
    case PressDeletePhoto(i) => Effect(RemovePhoto(s, i), None)
    case PressContinue => Effect(HandlePhotoComplete(s), None)
    case PressMarkSigned => Effect(MarkSigned(s), None)
    case PressSubmit => HandleSignatureComplete(s)
    case TimerFired => Effect(ResetScanner(), None)
  }

  /** A gesture on a disabled or absent control does nothing. */
  function Step(s: Session, ev: Event, orders: seq<Order>, trucks: seq<Truck>): Effect
  {
    if Enabled(s, ev, orders, trucks) then Apply(s, ev, orders, trucks) else Effect(s, None)
  }

  function CallsOf(c: Option<ScanCall>): seq<ScanCall>
  {
    match c
    case None => []
    case Some(x) => [x]
  }

  datatype Trace = Trace(session: Session, calls: seq<ScanCall>)

  /** The final session and the onScan calls, in order, of a sequence of gestures. */
  function Run(s: Session, evs: seq<Event>, orders: seq<Order>, trucks: seq<Truck>): Trace
    decreases |evs|
  {
    if evs == [] then Trace(s, [])
    else
      var e := Step(s, evs[0], orders, trucks);
      var rest := Run(e.session, evs[1..], orders, trucks);
      Trace(rest.session, CallsOf(e.call) + rest.calls)
  }

  // ------------------------------------------------------------- invariants

  /** The positions 0 .. n-1 of a list of n items. */
  function Indices(n: nat): (r: set<nat>)
    ensures forall i: nat :: i in r <==> i < n
  {
    if n == 0 then {} else Indices(n - 1) + {n - 1}
  }

  /** Every item of the scanned order is checked. */
  predicate AllChecked(s: Session)
  {
    s.scannedOrder.Some? && s.checkedItems == Indices(|s.scannedOrder.value.items|)
  }

  predicate HasOrder(st: ScanState)
  {
    st == ActionSelect || st == Checklist || st == TruckSelect || st == PhotoProof || st == Signature
  }

  /** What holds of every session the screens can reach from a reset. */
  ghost predicate Inv(s: Session)
  {
    && (s.state == Idle ==>
          !s.scanned && s.scannedOrder.None? && s.selectedAction.None? && s.checkedItems == {}
          && s.proofImages == [] && s.signature == "")
    && (HasOrder(s.state) ==>
          s.scannedOrder.Some? && s.checkedItems <= Indices(|s.scannedOrder.value.items|))
    && (HasOrder(s.state) && s.state != ActionSelect ==> s.selectedAction.Some?)
    && (s.state == TruckSelect ==> s.selectedAction == Some(Load) && AllChecked(s))
    && (s.state == PhotoProof || s.state == Signature ==>
          AllChecked(s)
          && (s.selectedAction == Some(Load) ==> s.selectedTruckId == s.scannedOrder.value.expectedTruckId))
    && (s.state == Signature ==> |s.proofImages| > 0)
  }

  lemma ResetEstablishesInv()
    ensures Inv(ResetScanner())
  {
  }

  lemma {:induction false} IndicesSize(n: nat)
    ensures |Indices(n)| == n
  {
    if n > 0 {
      IndicesSize(n - 1);
      assert Indices(n) == Indices(n - 1) + {n - 1};
    }
  }

  lemma {:induction false} SubsetSize(a: set<nat>, b: set<nat>)
    requires a <= b
    ensures |a| <= |b|
    ensures |a| == |b| ==> a == b
    decreases |b|
  {
    if b != {} {
      var x :| x in b;
      SubsetSize(a - {x}, b - {x});
      assert |b - {x}| == |b| - 1;
      if x in a {
        assert |a - {x}| == |a| - 1;
        if |a| == |b| {
          assert a == (a - {x}) + {x};
          assert b == (b - {x}) + {x};
        }
      } else {
        assert a - {x} == a;
      }
    }
  }

  /**
   * The checklist's continue button compares only sizes (checkedItems.size against
   * items.length); because only listed rows can be toggled, equal sizes mean every
   * item is checked.
   */
  lemma FullCountMeansAllChecked(s: Session)
    requires s.scannedOrder.Some? && s.checkedItems <= Indices(|s.scannedOrder.value.items|)
    ensures |s.checkedItems| == |s.scannedOrder.value.items| <==> AllChecked(s)
  {
    var n := |s.scannedOrder.value.items|;
    IndicesSize(n);
    SubsetSize(s.checkedItems, Indices(n));
  }

  /** Confirming the checklist moves to truck selection exactly for a LOAD, otherwise to photos. */
  lemma ConfirmRoutes(s: Session, orders: seq<Order>, trucks: seq<Truck>)
    requires Inv(s) && Enabled(s, PressConfirm, orders, trucks)
    ensures var r := Step(s, PressConfirm, orders, trucks).session;
      AllChecked(r)
      && (r.state == TruckSelect <==> s.selectedAction == Some(Load))
      && (r.state == PhotoProof <==> s.selectedAction == Some(Pickup))
  {
    FullCountMeansAllChecked(s);
    assert s.selectedAction.Some?;
    assert s.selectedAction.value.Load? || s.selectedAction.value.Pickup?;
  }

  /** The gestures of the idle screen keep the invariant: a hit captures an order with nothing checked. */
  lemma IdleStepKeepsInv(s: Session, ev: Event, orders: seq<Order>, trucks: seq<Truck>)
    requires Inv(s) && Enabled(s, ev, orders, trucks)
    requires ev.CameraDecode? || ev.TypeManual? || ev.PressGo? || ev.PressSimulate?
    ensures Inv(Apply(s, ev, orders, trucks).session)
  {
    var r := Apply(s, ev, orders, trucks).session;
    assert s.state == Idle && s.checkedItems == {};
    assert r.state == Idle || r.state == ActionSelect || r.state == ScanState.Error;
    assert r.checkedItems == {} && r.proofImages == [] && r.signature == "";
    assert r.state == ActionSelect ==> r.scannedOrder.Some?;
  }

  /** The order screen and the checklist keep the invariant. */
  lemma ChecklistStepKeepsInv(s: Session, ev: Event, orders: seq<Order>, trucks: seq<Truck>)
    requires Inv(s) && Enabled(s, ev, orders, trucks)
    requires ev.PressAction? || ev.PressCancel? || ev.PressItem? || ev.PressConfirm?
    ensures Inv(Apply(s, ev, orders, trucks).session)
  {
    match ev
    case PressConfirm =>
      FullCountMeansAllChecked(s);
    case PressItem(i) =>
      var r := Apply(s, ev, orders, trucks).session;
      assert r.checkedItems <= Indices(|s.scannedOrder.value.items|);
    case _ =>
  }

  /** Truck selection, photos and signature keep the invariant. */
  lemma LateStepKeepsInv(s: Session, ev: Event, orders: seq<Order>, trucks: seq<Truck>)
    requires Inv(s) && Enabled(s, ev, orders, trucks)
    requires !(ev.CameraDecode? || ev.TypeManual? || ev.PressGo? || ev.PressSimulate?)
    requires !(ev.PressAction? || ev.PressCancel? || ev.PressItem? || ev.PressConfirm?)
    ensures Inv(Apply(s, ev, orders, trucks).session)
  {
  }

  /** Every gesture keeps the invariant; a disabled one changes nothing. */
  lemma StepPreservesInv(s: Session, ev: Event, orders: seq<Order>, trucks: seq<Truck>)
    requires Inv(s)
    ensures Inv(Step(s, ev, orders, trucks).session)
  {
    if Enabled(s, ev, orders, trucks) {
      if ev.CameraDecode? || ev.TypeManual? || ev.PressGo? || ev.PressSimulate? {
        IdleStepKeepsInv(s, ev, orders, trucks);
      } else if ev.PressAction? || ev.PressCancel? || ev.PressItem? || ev.PressConfirm? {
        ChecklistStepKeepsInv(s, ev, orders, trucks);
      } else {
        LateStepKeepsInv(s, ev, orders, trucks);
      }
    }
  }

  /**
   * onScan is called only by a step that ends the session: the wrong-truck step
   * into ERROR and the final submit into SUCCESS.
   */
  lemma CallsEndSession(s: Session, ev: Event, orders: seq<Order>, trucks: seq<Truck>)
    requires Inv(s)
    ensures var e := Step(s, ev, orders, trucks);
      e.call.Some? ==> (!Terminal(s) && Terminal(e.session)
        && ((e.session.state == ScanState.Error && !e.call.value.isMatch)
            || (e.session.state == Success && e.call.value.isMatch)))
    ensures var e := Step(s, ev, orders, trucks);
      !Terminal(s) && e.session.state == Success ==> e.call.Some?
  {
  }

  /**
   * The final submit, when its button is enabled, reports one matching scan of the
   * captured order: every item was checked, at least one photo and a signature were
   * captured, and for a LOAD the truck is the order's expected truck.
   */
  lemma CommitSound(s: Session, orders: seq<Order>, trucks: seq<Truck>)
    requires Inv(s) && Enabled(s, PressSubmit, orders, trucks)
    ensures AllChecked(s) && |s.proofImages| > 0 && s.signature != ""
    ensures var o := s.scannedOrder.value;
      var a := s.selectedAction.value;
      var e := Step(s, PressSubmit, orders, trucks);
      e.session.state == Success
      && e.call == Some(ScanCall(o.id, a, true, if a == Load then Some(o.expectedTruckId) else None,
           Some(s.proofImages), Some(MOCK_GPS), Some(s.signature)))
  {
  }

  /** Choosing a truck other than the expected one reports exactly one non-matching LOAD. */
  lemma MismatchReported(s: Session, pick: nat, orders: seq<Order>, trucks: seq<Truck>)
    requires Inv(s) && Enabled(s, PressTruck(pick), orders, trucks)
    requires trucks[pick].id != s.scannedOrder.value.expectedTruckId
    ensures var o := s.scannedOrder.value;
      var e := Step(s, PressTruck(pick), orders, trucks);
      e.session.state == ScanState.Error
      && e.call == Some(ScanCall(o.id, Load, false, Some(trucks[pick].id), None, None, None))
      && e.session.feedbackMessage == WrongTruckMessage(o.expectedTruckId, trucks)
  {
  }

  /** Runs keep the invariant. */
  lemma {:induction false} RunPreservesInv(s: Session, evs: seq<Event>, orders: seq<Order>, trucks: seq<Truck>)
    requires Inv(s)
    ensures Inv(Run(s, evs, orders, trucks).session)
    decreases |evs|
  {
    if evs != [] {
      StepPreservesInv(s, evs[0], orders, trucks);
      RunPreservesInv(Step(s, evs[0], orders, trucks).session, evs[1..], orders, trucks);
    }
  }

  /**
   * One session, from any reachable state up to the next reset, calls onScan at
   * most once, and only as its last act: once the session is over nothing further
   * is reported until the timer resets it.
   */
  lemma {:induction false} AtMostOneCallPerSession(s: Session, evs: seq<Event>, orders: seq<Order>, trucks: seq<Truck>)
    requires Inv(s)
    requires forall i :: 0 <= i < |evs| ==> !Resets(evs[i])
    ensures var t := Run(s, evs, orders, trucks);
      |t.calls| <= 1
      && (|t.calls| == 1 ==> Terminal(t.session))
      && (Terminal(s) ==> t.calls == [] && t.session == s)
    decreases |evs|
  {
    if evs != [] {
      var e := Step(s, evs[0], orders, trucks);
      CallsEndSession(s, evs[0], orders, trucks);
      StepPreservesInv(s, evs[0], orders, trucks);
      AtMostOneCallPerSession(e.session, evs[1..], orders, trucks);
    }
  }

  /** Every call a run makes names a truck only for a LOAD. */
  lemma {:induction false} RunCallsTruckConsistent(s: Session, evs: seq<Event>, orders: seq<Order>, trucks: seq<Truck>)
    ensures forall c :: c in Run(s, evs, orders, trucks).calls ==> CallTruckConsistent(c)
    decreases |evs|
  {
    if evs != [] {
      RunCallsTruckConsistent(Step(s, evs[0], orders, trucks).session, evs[1..], orders, trucks);
    }
  }
}
