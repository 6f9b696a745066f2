/**
 * The Scanner component of src/Scanner.tsx as an object: one field per piece of
 * session state, one method per handler, and the onScan callback recorded as the
 * sequence of calls made so far. Each method's new state is the corresponding
 * ScanFlow function of the old state, so every property proved there holds here.
 */
module ScannerComponent {
  import opened Types
  import opened Text
  import ScanFlow

  class Scanner {
    var scanState: ScanFlow.ScanState
    var scanned: bool
    var scannedOrder: Option<Order>
    var selectedAction: Option<ScanAction>
    var selectedTruckId: string
    var proofImages: seq<string>
    var signature: string
    var checkedItems: set<nat>
    var manualInput: string
    var feedbackMessage: string
    /** Every onScan call made so far, oldest first. */
    var reported: seq<ScanCall>

    /** The session the fields currently hold. */
    function Snapshot(): ScanFlow.Session
      reads this
    {
      ScanFlow.Session(scanState, scanned, scannedOrder, selectedAction, selectedTruckId,
        proofImages, signature, checkedItems, manualInput, feedbackMessage)
    }

    /** The initial values of the component's state hooks. */
    constructor()
      ensures Snapshot() == ScanFlow.ResetScanner() && reported == []
    {
      scanState := ScanFlow.Idle;
      scanned := false;
      scannedOrder := None;
      selectedAction := None;
      selectedTruckId := "";
      proofImages := [];
      signature := "";
      checkedItems := {};
      manualInput := "";
      feedbackMessage := "";
      reported := [];
    }

    /** resetScanner: back to IDLE with every session field cleared. */
    method ResetScanner()
      modifies this
      ensures Snapshot() == ScanFlow.ResetScanner() && reported == old(reported)
    {
      scanState := ScanFlow.Idle;
      scannedOrder := None;
      selectedAction := None;
      selectedTruckId := "";
      proofImages := [];
      signature := "";
      checkedItems := {};
      feedbackMessage := "";
      manualInput := "";
      scanned := false;
    }

    /** The three-second timer, which runs only while the session shows SUCCESS or ERROR. */
    method Timeout()
      requires ScanFlow.Terminal(Snapshot())
      modifies this
      ensures Snapshot() == ScanFlow.ResetScanner() && reported == old(reported)
    {
      ResetScanner();
    }

    /** handleScan. */
    method HandleScan(code: string, orders: seq<Order>)
      modifies this
      ensures Snapshot() == ScanFlow.HandleScan(old(Snapshot()), code, orders) && reported == old(reported)
    {
      var found := ScanFlow.LookupOrder(orders, code);
      if found.None? {
        scanState := ScanFlow.Error;
        feedbackMessage := ScanFlow.NotFoundMessage(code);
        return;
      }
      scannedOrder := found;
      scanState := ScanFlow.ActionSelect;
    }

    /** handleBarCodeScanned. */
    method HandleBarCodeScanned(data: string, orders: seq<Order>)
      modifies this
      ensures Snapshot() == ScanFlow.HandleBarCodeScanned(old(Snapshot()), data, orders)
      ensures reported == old(reported)
    {
      if scanned {
        return;
      }
      scanned := true;
      HandleScan(data, orders);
    }

    /** The manual-entry text field's change handler. */
    method SetManualInput(text: string)
      modifies this
      ensures Snapshot() == old(Snapshot()).(manualInput := text) && reported == old(reported)
    {
      manualInput := text;
    }

    /** handleManualScan. */
    method HandleManualScan(orders: seq<Order>)
      modifies this
      ensures Snapshot() == ScanFlow.HandleManualScan(old(Snapshot()), orders) && reported == old(reported)
    {
      TrimEmptyIffBlank(manualInput);
      if Trim(manualInput) == "" {
        return;
      }
      HandleScan(Trim(manualInput), orders);
      manualInput := "";
    }

    /** handleActionSelect. */
    method HandleActionSelect(action: ScanAction)
      modifies this
      ensures Snapshot() == ScanFlow.HandleActionSelect(old(Snapshot()), action) && reported == old(reported)
    {
      selectedAction := Some(action);
      scanState := ScanFlow.Checklist;
    }

    /** handleChecklistComplete. */
    method HandleChecklistComplete()
      modifies this
      ensures Snapshot() == ScanFlow.HandleChecklistComplete(old(Snapshot())) && reported == old(reported)
    {
      if selectedAction == Some(Load) {
        scanState := ScanFlow.TruckSelect;
      } else {
        scanState := ScanFlow.PhotoProof;
      }
    }

    /** toggleItemCheck. */
    method ToggleItemCheck(index: nat)
      modifies this
      ensures Snapshot() == ScanFlow.ToggleItemCheck(old(Snapshot()), index) && reported == old(reported)
    {
      var newSet := checkedItems;
      if index in newSet {
        newSet := newSet - {index};
      } else {
        newSet := newSet + {index};
      }
      checkedItems := newSet;
    }

    /** handleTruckSelect: a wrong truck reports one non-matching LOAD through onScan. */
    method HandleTruckSelect(truckId: string, trucks: seq<Truck>)
      modifies this
      ensures var e := ScanFlow.HandleTruckSelect(old(Snapshot()), truckId, trucks);
        Snapshot() == e.session && reported == old(reported) + ScanFlow.CallsOf(e.call)
    {
      if scannedOrder.None? {
        return;
      }
      var order := scannedOrder.value;
      selectedTruckId := truckId;
      if order.expectedTruckId != truckId {
        scanState := ScanFlow.Error;
        feedbackMessage := ScanFlow.WrongTruckMessage(order.expectedTruckId, trucks);
        reported := reported + [ScanCall(order.id, Load, false, Some(truckId), None, None, None)];
        return;
      }
      scanState := ScanFlow.PhotoProof;
    }

    /** The "Back to Action" button of the truck screen. */
    method BackToAction()
      modifies this
      ensures Snapshot() == ScanFlow.BackToAction(old(Snapshot())) && reported == old(reported)
    {
      scanState := ScanFlow.ActionSelect;
    }

    /** takePhoto, once the camera has returned the reference of a captured image. */
    method TakePhoto(uri: string)
      modifies this
      ensures Snapshot() == ScanFlow.TakePhoto(old(Snapshot()), uri) && reported == old(reported)
    {
      proofImages := proofImages + [uri];
    }

    /** removePhoto. */
    method RemovePhoto(index: nat)
      modifies this
      ensures Snapshot() == ScanFlow.RemovePhoto(old(Snapshot()), index) && reported == old(reported)
    {
      if index < |proofImages| {
        proofImages := proofImages[..index] + proofImages[index + 1..];
      }
    }

    /** handlePhotoComplete. */
    method HandlePhotoComplete()
      modifies this
      ensures Snapshot() == ScanFlow.HandlePhotoComplete(old(Snapshot())) && reported == old(reported)
    {
      scanState := ScanFlow.Signature;
    }

    /** The signature pad's "mark as signed" button. */
    method MarkSigned()
      modifies this
      ensures Snapshot() == ScanFlow.MarkSigned(old(Snapshot())) && reported == old(reported)
    {
      signature := ScanFlow.SIGNED;
    }

    /** handleSignatureComplete: the one matching onScan call of a session. */
    method HandleSignatureComplete()
      modifies this
      ensures var e := ScanFlow.HandleSignatureComplete(old(Snapshot()));
        Snapshot() == e.session && reported == old(reported) + ScanFlow.CallsOf(e.call)
    {
      if scannedOrder.None? || selectedAction.None? {
        return;
      }
      var action := selectedAction.value;
      var call := ScanCall(scannedOrder.value.id, action, true,
        if action == Load then Some(selectedTruckId) else None,
        if |proofImages| > 0 then Some(proofImages) else None,
        Some(ScanFlow.MOCK_GPS), Some(signature));
      reported := reported + [call];
      feedbackMessage := ActionName(action) + " Complete!";
      scanState := ScanFlow.Success;
    }

    /**
     * One gesture on the current screen: the control's handler when the screen shows
     * the control enabled, nothing otherwise.
     */
    method Perform(ev: ScanFlow.Event, orders: seq<Order>, trucks: seq<Truck>)
      modifies this
      ensures var e := ScanFlow.Step(old(Snapshot()), ev, orders, trucks);
        Snapshot() == e.session && reported == old(reported) + ScanFlow.CallsOf(e.call)
    {
      if !ScanFlow.Enabled(Snapshot(), ev, orders, trucks) {
        return;
      }
      match ev
      case CameraDecode(data) => HandleBarCodeScanned(data, orders);
      case TypeManual(text) => SetManualInput(text);
      case PressGo => HandleManualScan(orders);
      case PressSimulate(pick) =>
        if pick < |orders| {
          HandleScan(orders[pick].id, orders);
        }
      case PressAction(action) => HandleActionSelect(action);
      case PressCancel => ResetScanner();
      case PressItem(index) => ToggleItemCheck(index);
      case PressConfirm => HandleChecklistComplete();
      case PressTruck(pick) => HandleTruckSelect(trucks[pick].id, trucks);
      case PressBack => BackToAction();
      case PhotoTaken(uri) => TakePhoto(uri);
      case PressDeletePhoto(index) => RemovePhoto(index);
      case PressContinue => HandlePhotoComplete();
      case PressMarkSigned => MarkSigned();
      case PressSubmit => HandleSignatureComplete();
      case TimerFired => Timeout();
    }
  }
}
