/**
 * The scanner wired to the App state (App.tsx:72): the Scanner screen sees the
 * current orders, and each onScan call it makes goes to App's handleScan. This
 * module states what one whole scan session does to the orders and the log.
 */
module Dispatch {
  import opened Types
  import opened ScanFlow
  import Store
  import Seed
  import Text
  import ScannerComponent

  /** The scanner's session together with App's two lists. */
  datatype World = World(session: Session, data: Store.AppData)

  /** One gesture on the scanner; a call it makes is recorded by App at time `now`. */
  function WorldStep(w: World, ev: Event, trucks: seq<Truck>, device: string, now: nat): World
  {
    var e := Step(w.session, ev, w.data.orders, trucks);
    match e.call
    case None => World(e.session, w.data)
    case Some(c) => World(e.session, Store.RecordScan(w.data, c, device, now))
  }

  function WorldRun(w: World, evs: seq<Event>, trucks: seq<Truck>, device: string, now: nat): World
    decreases |evs|
  {
    if evs == [] then w else WorldRun(WorldStep(w, evs[0], trucks, device, now), evs[1..], trucks, device, now)
  }

  /** A finished session ignores every gesture but the timer. */
  lemma TerminalIgnoresGestures(s: Session, ev: Event, orders: seq<Order>, trucks: seq<Truck>)
    requires Terminal(s) && !ev.TimerFired?
    ensures Step(s, ev, orders, trucks) == Effect(s, None)
  {
  }

  /**
   * The order the scanner holds is one of App's orders: the scanner looks codes up in
   * App's own list, and App never drops or renames an order while the scanner is shown.
   */
  ghost predicate OrderOnFile(w: World)
  {
    w.session.scannedOrder.Some? ==>
      exists k :: 0 <= k < |w.data.orders| && w.data.orders[k].id == w.session.scannedOrder.value.id
  }

  /** Recording a report keeps the length of the order list and every order's id. */
  lemma RecordScanKeepsIds(d: Store.AppData, c: ScanCall, device: string, now: nat)
    ensures var r := Store.RecordScan(d, c, device, now);
      |r.orders| == |d.orders| && forall i :: 0 <= i < |d.orders| ==> r.orders[i].id == d.orders[i].id
  {
    Store.ApplyScanChangesOnlyScanFields(d.orders, c.orderId, Store.Stamp(c.action, now, device, c.proofImages, c.signature));
  }

  /** A lookup captures an order of the list it searched, or keeps the order it had. */
  lemma LookupKeepsOrderOnFile(s: Session, code: string, d: Store.AppData)
    requires OrderOnFile(World(s, d))
    ensures OrderOnFile(World(HandleScan(s, code, d.orders), d))
  {
    LookupSpec(s, code, d.orders);
    var r := HandleScan(s, code, d.orders);
    if r.state == ActionSelect {
      var i :| 0 <= i < |d.orders| && r.scannedOrder == Some(d.orders[i]) && Matches(d.orders[i], code);
      assert d.orders[i].id == r.scannedOrder.value.id;
    }
  }

  /** Every gesture, and App's recording of what it reports, keeps the held order on file. */
  lemma StepKeepsOrderOnFile(w: World, ev: Event, trucks: seq<Truck>, device: string, now: nat)
    requires OrderOnFile(w)
    ensures OrderOnFile(WorldStep(w, ev, trucks, device, now))
  {
    var s := w.session;
    var d := w.data;
    var e := Step(s, ev, d.orders, trucks);
    if Enabled(s, ev, d.orders, trucks) {
      match ev
      case CameraDecode(data) =>
        if !s.scanned {
          LookupKeepsOrderOnFile(s.(scanned := true), data, d);
        }
      case PressGo =>
        Text.TrimEmptyIffBlank(s.manualInput);
        if Text.Trim(s.manualInput) != "" {
          LookupKeepsOrderOnFile(s, Text.Trim(s.manualInput), d);
        }
      case PressSimulate(k) =>
        if k < |d.orders| {
          LookupKeepsOrderOnFile(s, d.orders[k].id, d);
        }
      case _ =>
    }
    assert OrderOnFile(World(e.session, d));
    if e.call.Some? {
      RecordScanKeepsIds(d, e.call.value, device, now);
    }
  }

  /** Runs keep the held order on file. */
  lemma {:induction false} RunKeepsOrderOnFile(w: World, evs: seq<Event>, trucks: seq<Truck>, device: string, now: nat)
    requires OrderOnFile(w)
    ensures OrderOnFile(WorldRun(w, evs, trucks, device, now))
    decreases |evs|
  {
    if evs != [] {
      StepKeepsOrderOnFile(w, evs[0], trucks, device, now);
      RunKeepsOrderOnFile(WorldStep(w, evs[0], trucks, device, now), evs[1..], trucks, device, now);
    }
  }

  /**
   * The step that reports: it keeps the held order, reports that order's id, and App
   * records the report. A match ends in SUCCESS with the selected action and gives an
   * order with that id the action's status; a mismatch is a LOAD, ends in ERROR and
   * changes no order.
   */
  lemma ReportingStep(w: World, ev: Event, trucks: seq<Truck>, device: string, now: nat)
    requires Inv(w.session) && OrderOnFile(w)
    requires Step(w.session, ev, w.data.orders, trucks).call.Some?
    ensures var r := WorldStep(w, ev, trucks, device, now);
      var c := Step(w.session, ev, w.data.orders, trucks).call.value;
      r.session.scannedOrder == w.session.scannedOrder && r.session.scannedOrder.Some?
      && c.orderId == r.session.scannedOrder.value.id
      && r.data == Store.RecordScan(w.data, c, device, now)
      && (r.session.state == Success ==>
            c.isMatch && r.session.selectedAction == Some(c.action)
            && exists k :: 0 <= k < |r.data.orders| && r.data.orders[k].id == c.orderId
                 && r.data.orders[k].status == Store.StatusAfter(c.action))
      && (r.session.state == ScanState.Error ==> !c.isMatch && c.action == Load && r.data.orders == w.data.orders)
  {
    var s := w.session;
    var e := Step(s, ev, w.data.orders, trucks);
    var c := e.call.value;
    CallsEndSession(s, ev, w.data.orders, trucks);
    assert ev.PressTruck? || ev.PressSubmit?;
    assert e.session.scannedOrder == s.scannedOrder && c.orderId == s.scannedOrder.value.id;
    var k :| 0 <= k < |w.data.orders| && w.data.orders[k].id == s.scannedOrder.value.id;
    Store.RecordScanSpec(w.data, c, device, now);
  }

  /**
   * A scan session, from any reachable state up to the next reset, either leaves the
   * orders and the log untouched, and then an unfinished session does not end in
   * SUCCESS, or ends finished having added exactly one log entry
   * at the front, with App's update for that entry's call applied. The entry is about
   * the order the session holds. It is a match exactly when the session ended in
   * SUCCESS; then it carries the selected action, and an order with that id now has
   * the action's status. A non-matching entry is a LOAD and leaves every order as it was.
   */
  lemma {:induction false} SessionOutcome(w: World, evs: seq<Event>, trucks: seq<Truck>, device: string, now: nat)
    requires Inv(w.session) && OrderOnFile(w)
    requires forall i :: 0 <= i < |evs| ==> !Resets(evs[i])
    ensures var r := WorldRun(w, evs, trucks, device, now);
      (r.data == w.data && (Terminal(w.session) ==> r.session == w.session)
       && (!Terminal(w.session) ==> r.session.state != Success))
      || (Terminal(r.session) && !Terminal(w.session) && |r.data.logs| == |w.data.logs| + 1
          && r.data == Store.RecordScan(w.data, Store.CallOf(r.data.logs[0]), device, now)
          && (r.data.logs[0].isMatch <==> r.session.state == Success)
          && r.session.scannedOrder.Some? && r.data.logs[0].orderId == r.session.scannedOrder.value.id
          && (r.session.state == Success ==>
                r.session.selectedAction == Some(r.data.logs[0].action)
                && exists k :: 0 <= k < |r.data.orders| && r.data.orders[k].id == r.data.logs[0].orderId
                     && r.data.orders[k].status == Store.StatusAfter(r.data.logs[0].action))
          && (r.session.state == ScanState.Error ==> r.data.logs[0].action == Load && r.data.orders == w.data.orders))
    decreases |evs|
  {
    if evs != [] {
      var e := Step(w.session, evs[0], w.data.orders, trucks);
      var w1 := WorldStep(w, evs[0], trucks, device, now);
      StepPreservesInv(w.session, evs[0], w.data.orders, trucks);
      StepKeepsOrderOnFile(w, evs[0], trucks, device, now);
      CallsEndSession(w.session, evs[0], w.data.orders, trucks);
      SessionOutcome(w1, evs[1..], trucks, device, now);
      if Terminal(w.session) {
        TerminalIgnoresGestures(w.session, evs[0], w.data.orders, trucks);
      }
      if e.call.Some? {
        Store.LogEntryRecordsCall(e.call.value, device, now);
        ReportingStep(w, evs[0], trucks, device, now);
      }
    }
  }

  /**
   * A session that starts unfinished and ends in SUCCESS before any reset has logged
   * exactly one matching entry, for the held order, and that order took the status of
   * the entry's action.
   */
  lemma SuccessLogsOneMatch(w: World, evs: seq<Event>, trucks: seq<Truck>, device: string, now: nat)
    requires Inv(w.session) && OrderOnFile(w) && !Terminal(w.session)
    requires forall i :: 0 <= i < |evs| ==> !Resets(evs[i])
    requires WorldRun(w, evs, trucks, device, now).session.state == Success
    ensures var r := WorldRun(w, evs, trucks, device, now);
      |r.data.logs| == |w.data.logs| + 1 && r.data.logs[1..] == w.data.logs && r.data.logs[0].isMatch
      && r.session.scannedOrder.Some? && r.data.logs[0].orderId == r.session.scannedOrder.value.id
      && exists k :: 0 <= k < |r.data.orders| && r.data.orders[k].id == r.data.logs[0].orderId
           && r.data.orders[k].status == Store.StatusAfter(r.data.logs[0].action)
  {
    SessionOutcome(w, evs, trucks, device, now);
    var r := WorldRun(w, evs, trucks, device, now);
    Store.RecordScanSpec(w.data, Store.CallOf(r.data.logs[0]), device, now);
  }

  /**
   * What the three outcomes mean for App: a non-matching report leaves every order as
   * it was, a matching one changes only the orders with the reported id, and those
   * take the status of the reported action.
   */
  lemma ReportEffect(d: Store.AppData, c: ScanCall, device: string, now: nat)
    ensures var r := Store.RecordScan(d, c, device, now);
      |r.logs| == |d.logs| + 1 && r.logs[1..] == d.logs && r.logs[0].isMatch == c.isMatch
      && (!c.isMatch ==> r.orders == d.orders)
      && |r.orders| == |d.orders|
      && (forall i :: 0 <= i < |d.orders| && r.orders[i] != d.orders[i] ==> c.isMatch && d.orders[i].id == c.orderId)
      && (c.isMatch ==> forall i :: 0 <= i < |d.orders| && d.orders[i].id == c.orderId ==>
            r.orders[i].status == Store.StatusAfter(c.action))
  {
    Store.RecordScanSpec(d, c, device, now);
  }

  // ------------------------------------------------------------ scenarios

  /** The app at start-up: a fresh scanner, the seed orders and an empty log. */
  function Start(): World
  {
    World(ResetScanner(), Store.AppData(Seed.INITIAL_ORDERS, []))
  }

  /** A code with no whitespace at either end and no lower-case letter. */
  predicate Canonical(s: string)
  {
    s != [] && !Text.IsJsWhitespace(s[0]) && !Text.IsJsWhitespace(s[|s| - 1])
    && forall i :: 0 <= i < |s| ==> !('a' <= s[i] <= 'z')
  }

  /** Between canonical ids and codes, handleScan's comparison is plain equality. */
  lemma CanonicalMatch(o: Order, code: string)
    requires Canonical(o.id) && Canonical(code)
    ensures Matches(o, code) <==> o.id == code
  {
    var a := o.id;
    assert Text.TrimStart(a) == a && Text.TrimEnd(a) == a;
    assert Text.TrimStart(code) == code && Text.TrimEnd(code) == code;
  }

  /** "JOB-XX-999" is not the id of a seed order. */
  lemma UnknownCodeMisses(o: Order)
    requires o in {Seed.ORDER_KL_001, Seed.ORDER_SJ_102, Seed.ORDER_KL_003, Seed.ORDER_PN_104}
    ensures !Matches(o, "JOB-XX-999")
  {
    assert Canonical(o.id) && o.id[4] != 'X';
    CanonicalMatch(o, "JOB-XX-999");
  }

  /** "JOB-XX-999" matches no seed order. */
  lemma UnknownCodeMissesSeed()
    ensures FindOrder(Seed.INITIAL_ORDERS, "JOB-XX-999").None?
  {
    var o := Seed.INITIAL_ORDERS;
    forall i | 0 <= i < |o| ensures !Matches(o[i], "JOB-XX-999") {
      if i == 0 { assert o[i] == Seed.ORDER_KL_001; }
      else if i == 1 { assert o[i] == Seed.ORDER_SJ_102; }
      else if i == 2 { assert o[i] == Seed.ORDER_KL_003; }
      else { assert o[i] == Seed.ORDER_PN_104; }
      UnknownCodeMisses(o[i]);
    }
  }

  /** Decoding a code no order matches, from a fresh session: ERROR, nothing reported. */
  lemma DecodeUnknown(d: Store.AppData, code: string, trucks: seq<Truck>, device: string, now: nat)
    requires FindOrder(d.orders, code).None?
    ensures WorldStep(World(ResetScanner(), d), CameraDecode(code), trucks, device, now)
      == World(ResetScanner().(scanned := true, state := ScanState.Error, feedbackMessage := NotFoundMessage(code)), d)
  {
  }

  /** Scanning a code that matches no seed order: ERROR with the not-found message, nothing reported. */
  lemma UnknownCodeScenario(device: string, now: nat)
    ensures var r := WorldRun(Start(), [CameraDecode("JOB-XX-999")], Seed.INITIAL_TRUCKS, device, now);
      r.session.state == ScanState.Error && r.session.feedbackMessage == NotFoundMessage("JOB-XX-999")
      && r.session.scannedOrder.None? && r.data == Start().data
  {
    UnknownCodeMissesSeed();
    DecodeUnknown(Start().data, "JOB-XX-999", Seed.INITIAL_TRUCKS, device, now);
    WorldRunCons(Start(), CameraDecode("JOB-XX-999"), [], Seed.INITIAL_TRUCKS, device, now);
    assert [CameraDecode("JOB-XX-999")] + [] == [CameraDecode("JOB-XX-999")];
  }

  /** Running `ev` and then `rest` is running `rest` from the world after `ev`. */
  lemma WorldRunCons(w: World, ev: Event, rest: seq<Event>, trucks: seq<Truck>, device: string, now: nat)
    ensures WorldRun(w, [ev] + rest, trucks, device, now) == WorldRun(WorldStep(w, ev, trucks, device, now), rest, trucks, device, now)
  {
    assert ([ev] + rest)[1..] == rest;
  }

  /** Running two lists of gestures one after the other is running their concatenation. */
  lemma {:induction false} WorldRunAppend(w: World, a: seq<Event>, b: seq<Event>, trucks: seq<Truck>, device: string, now: nat)
    ensures WorldRun(w, a + b, trucks, device, now)
      == WorldRun(WorldRun(w, a, trucks, device, now), b, trucks, device, now)
    decreases |a|
  {
    if a == [] {
      assert a + b == b;
    } else {
      assert (a + b)[1..] == a[1..] + b;
      WorldRunAppend(WorldStep(w, a[0], trucks, device, now), a[1..], b, trucks, device, now);
    }
  }

  /** JOB-KL-001 captured on the order screen. */
  function Captured(): Session
  {
    ResetScanner().(state := ActionSelect, scanned := true, scannedOrder := Some(Seed.ORDER_KL_001))
  }

  /** Decoding "JOB-KL-001" at start-up captures the first seed order. */
  lemma DecodeFirstSeedOrder(device: string, now: nat)
    ensures WorldStep(Start(), CameraDecode("JOB-KL-001"), Seed.INITIAL_TRUCKS, device, now) == World(Captured(), Start().data)
  {
    assert Seed.INITIAL_ORDERS[0] == Seed.ORDER_KL_001;
    assert FindOrder(Seed.INITIAL_ORDERS, "JOB-KL-001") == Some(0);
  }

  /** JOB-KL-001 chosen for a LOAD, both its items checked and the checklist confirmed. */
  function AtTrucks(): Session
  {
    Captured().(state := TruckSelect, selectedAction := Some(Load), checkedItems := {0, 1})
  }

  /** Choosing LOAD on the order screen, checking both items and confirming. */
  const LOAD_CHECKLIST: seq<Event> := [PressAction(Load), PressItem(0), PressItem(1), PressConfirm]

  /** From JOB-KL-001's order screen, the checklist gestures lead to the truck screen. */
  lemma ChecklistToTrucks(d: Store.AppData, trucks: seq<Truck>, device: string, now: nat)
    ensures WorldRun(World(Captured(), d), LOAD_CHECKLIST, trucks, device, now) == World(AtTrucks(), d)
  {
    var s2 := Captured().(state := Checklist, selectedAction := Some(Load));
    var s3 := s2.(checkedItems := {0});
    var s4 := s2.(checkedItems := {0, 1});
    assert |Seed.ORDER_KL_001.items| == 2;
    assert WorldStep(World(Captured(), d), PressAction(Load), trucks, device, now) == World(s2, d);
    assert WorldStep(World(s2, d), PressItem(0), trucks, device, now) == World(s3, d);
    assert {0} + {1} == {0, 1};
    assert WorldStep(World(s3, d), PressItem(1), trucks, device, now) == World(s4, d);
    assert |{0, 1}| == 2;
    assert WorldStep(World(s4, d), PressConfirm, trucks, device, now) == World(AtTrucks(), d);
    var evs := LOAD_CHECKLIST;
    WorldRunCons(World(Captured(), d), evs[0], evs[1..], trucks, device, now);
    WorldRunCons(World(s2, d), evs[1], evs[2..], trucks, device, now);
    WorldRunCons(World(s3, d), evs[2], evs[3..], trucks, device, now);
    WorldRunCons(World(s4, d), evs[3], evs[4..], trucks, device, now);
    assert evs[4..] == [];
  }

  /** The onScan call of a LOAD of JOB-KL-001 onto the wrong truck, TRUCK-B. */
  const WRONG_TRUCK_CALL: ScanCall := ScanCall("JOB-KL-001", Load, false, Some("TRUCK-B"), None, None, None)

  /** Choosing TRUCK-B for JOB-KL-001 reports the mismatch and ends in ERROR. */
  lemma PickWrongTruck(d: Store.AppData, device: string, now: nat)
    ensures WorldStep(World(AtTrucks(), d), PressTruck(1), Seed.INITIAL_TRUCKS, device, now)
      == World(AtTrucks().(selectedTruckId := "TRUCK-B", state := ScanState.Error,
           feedbackMessage := WrongTruckMessage("TRUCK-A", Seed.INITIAL_TRUCKS)),
         Store.RecordScan(d, WRONG_TRUCK_CALL, device, now))
  {
    assert Seed.INITIAL_TRUCKS[1].id == "TRUCK-B";
  }

  /** The wrong-truck message for a JOB-KL-001 load names TRUCK-A by its name. */
  lemma WrongTruckNamesTruckA()
    ensures WrongTruckMessage("TRUCK-A", Seed.INITIAL_TRUCKS) == "WRONG TRUCK! Goes to Truck A (North)"
  {
    var t := Seed.INITIAL_TRUCKS;
    assert t[0] == Truck("TRUCK-A", "Truck A (North)", "bg-blue-100 text-blue-800");
    assert ExpectedTruckLabel("TRUCK-A", t) == "Truck A (North)";
  }

  /** The gestures that load JOB-KL-001 onto TRUCK-B. */
  const WRONG_TRUCK_GESTURES: seq<Event> := [CameraDecode("JOB-KL-001")] + LOAD_CHECKLIST + [PressTruck(1)]

  /**
   * Loading JOB-KL-001 onto TRUCK-B: the session ends in ERROR naming the right truck,
   * App logs one non-matching entry and no order changes.
   */
  lemma WrongTruckScenario(device: string, now: nat)
    ensures var r := WorldRun(Start(), WRONG_TRUCK_GESTURES, Seed.INITIAL_TRUCKS, device, now);
      r.session.state == ScanState.Error
      && r.session.feedbackMessage == "WRONG TRUCK! Goes to Truck A (North)"
      && r.data == Store.RecordScan(Start().data, WRONG_TRUCK_CALL, device, now)
      && r.data.orders == Seed.INITIAL_ORDERS && |r.data.logs| == 1 && !r.data.logs[0].isMatch
  {
    var t := Seed.INITIAL_TRUCKS;
    var d := Start().data;
    WorldRunAppend(Start(), [CameraDecode("JOB-KL-001")] + LOAD_CHECKLIST, [PressTruck(1)], t, device, now);
    WorldRunAppend(Start(), [CameraDecode("JOB-KL-001")], LOAD_CHECKLIST, t, device, now);
    WorldRunCons(Start(), CameraDecode("JOB-KL-001"), [], t, device, now);
    WorldRunCons(World(AtTrucks(), d), PressTruck(1), [], t, device, now);
    assert [CameraDecode("JOB-KL-001")] + [] == [CameraDecode("JOB-KL-001")];
    assert [PressTruck(1)] + [] == [PressTruck(1)];
    DecodeFirstSeedOrder(device, now);
    ChecklistToTrucks(d, t, device, now);
    PickWrongTruck(d, device, now);
    WrongTruckNamesTruckA();
    ReportEffect(d, WRONG_TRUCK_CALL, device, now);
  }

  /** JOB-KL-001 on TRUCK-A with one photo and the signature, before submitting. */
  function ReadyToSubmit(uri: string): Session
  {
    AtTrucks().(selectedTruckId := "TRUCK-A", state := Signature, proofImages := [uri], signature := SIGNED)
  }

  /** The onScan call of a completed LOAD of JOB-KL-001 onto TRUCK-A with one photo. */
  function LoadCall(uri: string): ScanCall
  {
    ScanCall("JOB-KL-001", Load, true, Some("TRUCK-A"), Some([uri]), Some(MOCK_GPS), Some(SIGNED))
  }

  /** The right truck, one photo, continue and mark signed. */
  function ToSignature(uri: string): seq<Event>
  {
    [PressTruck(0), PhotoTaken(uri), PressContinue, PressMarkSigned]
  }

  /** From the truck screen, the right truck, a photo and the signature make the session ready to submit. */
  lemma RightTruckToSignature(d: Store.AppData, uri: string, device: string, now: nat)
    ensures WorldRun(World(AtTrucks(), d), ToSignature(uri), Seed.INITIAL_TRUCKS, device, now)
      == World(ReadyToSubmit(uri), d)
  {
    var t := Seed.INITIAL_TRUCKS;
    var s1 := AtTrucks().(selectedTruckId := "TRUCK-A", state := PhotoProof);
    var s2 := s1.(proofImages := [uri]);
    var s3 := s2.(state := Signature);
    assert t[0].id == "TRUCK-A";
    assert WorldStep(World(AtTrucks(), d), PressTruck(0), t, device, now) == World(s1, d);
    assert WorldStep(World(s1, d), PhotoTaken(uri), t, device, now) == World(s2, d);
    assert WorldStep(World(s2, d), PressContinue, t, device, now) == World(s3, d);
    assert WorldStep(World(s3, d), PressMarkSigned, t, device, now) == World(ReadyToSubmit(uri), d);
    var evs := ToSignature(uri);
    WorldRunCons(World(AtTrucks(), d), evs[0], evs[1..], t, device, now);
    WorldRunCons(World(s1, d), evs[1], evs[2..], t, device, now);
    WorldRunCons(World(s2, d), evs[2], evs[3..], t, device, now);
    WorldRunCons(World(s3, d), evs[3], evs[4..], t, device, now);
    assert evs[4..] == [];
  }

  /** Submitting makes the matching LOAD call and ends in SUCCESS. */
  lemma SubmitLoad(d: Store.AppData, uri: string, device: string, now: nat)
    ensures WorldRun(World(ReadyToSubmit(uri), d), [PressSubmit], Seed.INITIAL_TRUCKS, device, now)
      == World(ReadyToSubmit(uri).(state := Success, feedbackMessage := ActionName(Load) + " Complete!"),
           Store.RecordScan(d, LoadCall(uri), device, now))
  {
    var s := ReadyToSubmit(uri);
    var e := HandleSignatureComplete(s);
    assert e.call == Some(LoadCall(uri));
    assert e.session == s.(state := Success, feedbackMessage := ActionName(Load) + " Complete!");
    assert Step(s, PressSubmit, d.orders, Seed.INITIAL_TRUCKS) == e;
    WorldRunCons(World(s, d), PressSubmit, [], Seed.INITIAL_TRUCKS, device, now);
    assert [PressSubmit] + [] == [PressSubmit];
  }

  /** A matching LOAD of JOB-KL-001 marks that seed order LOADED and no other. */
  lemma LoadMarksFirstSeedOrder(uri: string, device: string, now: nat)
    ensures var r := Store.RecordScan(Start().data, LoadCall(uri), device, now);
      |r.orders| == 4 && r.orders[0].status == Loaded && r.orders[1..] == Seed.INITIAL_ORDERS[1..]
      && |r.logs| == 1 && r.logs[0].isMatch
  {
    var d := Start().data;
    var r := Store.RecordScan(d, LoadCall(uri), device, now);
    ReportEffect(d, LoadCall(uri), device, now);
    Seed.SeedOrderIdsDistinct();
    assert d.orders[0].id == "JOB-KL-001";
    forall i | 1 <= i < 4 ensures r.orders[i] == d.orders[i] {
      assert d.orders[i].id != d.orders[0].id;
    }
  }

  /** The gestures that load JOB-KL-001 onto TRUCK-A with one photo. */
  function LoadGestures(uri: string): seq<Event>
  {
    [CameraDecode("JOB-KL-001")] + LOAD_CHECKLIST + ToSignature(uri) + [PressSubmit]
  }

  /**
   * Loading JOB-KL-001 onto TRUCK-A with a photo and a signature: SUCCESS, one matching
   * log entry, and that order, and only that one, becomes LOADED.
   */
  lemma CorrectLoadScenario(uri: string, device: string, now: nat)
    ensures var r := WorldRun(Start(), LoadGestures(uri), Seed.INITIAL_TRUCKS, device, now);
      r.session.state == Success && r.session.feedbackMessage == ActionName(Load) + " Complete!"
      && r.data == Store.RecordScan(Start().data, LoadCall(uri), device, now)
      && |r.data.orders| == 4 && r.data.orders[0].status == Loaded && r.data.orders[1..] == Seed.INITIAL_ORDERS[1..]
      && |r.data.logs| == 1 && r.data.logs[0].isMatch
  {
    var t := Seed.INITIAL_TRUCKS;
    var d := Start().data;
    var first := [CameraDecode("JOB-KL-001")];
    WorldRunAppend(Start(), first + LOAD_CHECKLIST + ToSignature(uri), [PressSubmit], t, device, now);
    WorldRunAppend(Start(), first + LOAD_CHECKLIST, ToSignature(uri), t, device, now);
    WorldRunAppend(Start(), first, LOAD_CHECKLIST, t, device, now);
    WorldRunCons(Start(), CameraDecode("JOB-KL-001"), [], t, device, now);
    assert first + [] == first;
    DecodeFirstSeedOrder(device, now);
    ChecklistToTrucks(d, t, device, now);
    RightTruckToSignature(d, uri, device, now);
    SubmitLoad(d, uri, device, now);
    LoadMarksFirstSeedOrder(uri, device, now);
  }

  // ------------------------------------------------------------ the objects

  /**
   * One gesture on the Scanner object with App's current orders as its prop; a call it
   * reports is handed to App's handleScan. The two objects then hold the WorldStep.
   */
  method Gesture(scanner: ScannerComponent.Scanner, app: Store.AppStore, ev: Event, trucks: seq<Truck>, now: nat)
    modifies scanner, app
    ensures var w := WorldStep(World(old(scanner.Snapshot()), old(app.Data())), ev, trucks, old(app.deviceName), now);
      scanner.Snapshot() == w.session && app.Data() == w.data && app.deviceName == old(app.deviceName)
    ensures |scanner.reported| <= |old(scanner.reported)| + 1
  {
    var before := |scanner.reported|;
    scanner.Perform(ev, app.orders, trucks);
    if |scanner.reported| > before {
      app.HandleScan(scanner.reported[before], now);
    }
  }
}
