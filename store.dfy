/**
 * The state App.tsx holds for the whole app: the order list and the scan log,
 * newest entry first, with the three handlers that change them. The updates are
 * functions on sequences with their properties as lemmas; `AppStore` is the object
 * that holds the two lists and applies them.
 */
module Store {
  import opened Types
  import Text
  import Seqs

  // ------------------------------------------------------------ the actor

  /**
   * The name written into log entries and orders: the device's name, else its model
   * name, else "Unknown Driver" (an empty name counts as absent).
   */
  function ResolveDeviceName(deviceName: Option<string>, modelName: Option<string>): (r: string)
    ensures r != ""
    ensures deviceName.Some? && deviceName.value != "" ==> r == deviceName.value
    ensures (deviceName.None? || deviceName.value == "") && (modelName.None? || modelName.value == "") ==>
      r == "Unknown Driver"
    ensures (deviceName.None? || deviceName.value == "") && modelName.Some? && modelName.value != "" ==>
      r == modelName.value
  {
    if deviceName.Some? && deviceName.value != "" then deviceName.value
    else if modelName.Some? && modelName.value != "" then modelName.value
    else "Unknown Driver"
  }

  // ------------------------------------------------------------ the log

  /** The log entry handleScan writes for one onScan call, stamped with `now` (milliseconds). */
  function NewLogEntry(c: ScanCall, device: string, now: nat): LogEntry
  {
    LogEntry(Text.NatToString(now), now, c.orderId, device, c.action, c.truckId, c.gps,
      c.proofImages, c.signature, c.isMatch, None)
  }

  /** The onScan arguments a log entry records. */
  function CallOf(e: LogEntry): ScanCall
  {
    ScanCall(e.orderId, e.action, e.isMatch, e.truckId, e.proofImages, e.gpsLocation, e.signature)
  }

  /**
   * A log entry records every argument of its call, unchanged, together with the
   * device and the time; its id is the decimal timestamp and parses back to it.
   */
  lemma LogEntryRecordsCall(c: ScanCall, device: string, now: nat)
    ensures var e := NewLogEntry(c, device, now);
      CallOf(e) == c && e.scannedBy == device && e.timestamp == now
      && Text.ParseInt(e.id) == Text.Num(now)
      && (EntryTruckConsistent(e) <==> CallTruckConsistent(c))
  {
    Text.ParseIntOfNatToString(now);
  }

  /** Entries made at different times have different ids. */
  lemma LogIdsFollowTimestamps(c1: ScanCall, c2: ScanCall, device1: string, device2: string, t1: nat, t2: nat)
    requires t1 != t2
    ensures NewLogEntry(c1, device1, t1).id != NewLogEntry(c2, device2, t2).id
  {
    if Text.NatToString(t1) == Text.NatToString(t2) {
      Text.NatToStringInjective(t1, t2);
    }
  }

  // ------------------------------------------------------------ the orders

  /** The status a matching scan records: PICKED_UP for a PICKUP, LOADED for a LOAD. */
  function StatusAfter(action: ScanAction): (r: OrderStatus)
    ensures r == PickedUp <==> action == Pickup
    ensures r == Loaded <==> action == Load
  {
    match action
    case Pickup => PickedUp
    case Load => Loaded
  }

  /** The fields a matching scan writes into an order. */
  datatype Stamp = Stamp(
    action: ScanAction,
    at: nat,
    scannedBy: string,
    proofImages: Option<seq<string>>,
    signature: Option<string>)

  /** The spread `{ ...o, status, lastAction, lastScannedAt, lastScannedBy, proofImages, signature }`. */
  function Stamped(o: Order, st: Stamp): Order
  {
    o.(status := StatusAfter(st.action), lastAction := Some(st.action), lastScannedAt := Some(st.at),
      lastScannedBy := Some(st.scannedBy), proofImages := st.proofImages, signature := st.signature)
  }

  /** `orders.map(o => o.id === orderId ? stamped(o) : o)`. */
  function ApplyScan(orders: seq<Order>, orderId: string, st: Stamp): (r: seq<Order>)
    ensures |r| == |orders|
    ensures forall i :: 0 <= i < |orders| && orders[i].id == orderId ==> r[i] == Stamped(orders[i], st)
    ensures forall i :: 0 <= i < |orders| && orders[i].id != orderId ==> r[i] == orders[i]
  {
    if orders == [] then []
    else [if orders[0].id == orderId then Stamped(orders[0], st) else orders[0]] + ApplyScan(orders[1..], orderId, st)
  }

  /**
   * A matching scan changes, in the orders with the scanned id, only the status and
   * the scan fields: id, destination, truck, items, priority and notes stay. The ids,
   * and so the positions of all orders, are unchanged.
   */
  lemma ApplyScanChangesOnlyScanFields(orders: seq<Order>, orderId: string, st: Stamp)
    ensures var r := ApplyScan(orders, orderId, st);
      forall i :: 0 <= i < |orders| ==>
        r[i].(status := orders[i].status, lastAction := orders[i].lastAction,
          lastScannedAt := orders[i].lastScannedAt, lastScannedBy := orders[i].lastScannedBy,
          proofImages := orders[i].proofImages, signature := orders[i].signature) == orders[i]
    ensures var r := ApplyScan(orders, orderId, st);
      forall i :: 0 <= i < |orders| ==> r[i].id == orders[i].id
    ensures var r := ApplyScan(orders, orderId, st);
      forall i :: 0 <= i < |orders| && orders[i].id == orderId ==>
        r[i].status == StatusAfter(st.action) && r[i].lastAction == Some(st.action)
        && r[i].lastScannedAt == Some(st.at) && r[i].lastScannedBy == Some(st.scannedBy)
        && r[i].proofImages == st.proofImages && r[i].signature == st.signature
  {
  }

  /** A scan of an id that no order has changes nothing. */
  lemma ApplyScanUnknownId(orders: seq<Order>, orderId: string, st: Stamp)
    requires forall o :: o in orders ==> o.id != orderId
    ensures ApplyScan(orders, orderId, st) == orders
  {
    var r := ApplyScan(orders, orderId, st);
    assert forall i :: 0 <= i < |orders| ==> orders[i] in orders;
  }

  /** Repeating the same scan update changes nothing more. */
  lemma ApplyScanIdempotent(orders: seq<Order>, orderId: string, st: Stamp)
    ensures ApplyScan(ApplyScan(orders, orderId, st), orderId, st) == ApplyScan(orders, orderId, st)
  {
  }

  /** handleAddOrder: `[...prev, order]`. */
  function AddOrder(orders: seq<Order>, order: Order): (r: seq<Order>)
    ensures |r| == |orders| + 1 && r[..|orders|] == orders && r[|orders|] == order
  {
    orders + [order]
  }

  /** handleDeleteOrder: `prev.filter(o => o.id !== orderId)`. */
  function DeleteOrder(orders: seq<Order>, orderId: string): seq<Order>
  {
    Seqs.Filter(orders, (o: Order) => o.id != orderId)
  }

  /**
   * Deleting removes exactly the orders with that id, never lengthens the list, and
   * an id that no order has leaves the list as it was.
   */
  lemma DeleteOrderSpec(orders: seq<Order>, orderId: string)
    ensures var r := DeleteOrder(orders, orderId);
      |r| <= |orders| && forall o :: o in r <==> o in orders && o.id != orderId
    ensures (forall o :: o in orders ==> o.id != orderId) ==> DeleteOrder(orders, orderId) == orders
  {
    if forall o :: o in orders ==> o.id != orderId {
      assert forall i :: 0 <= i < |orders| ==> orders[i] in orders;
    }
  }

  /** Deleting keeps the relative order of what remains: it distributes over concatenation. */
  lemma DeleteOrderKeepsOrder(a: seq<Order>, b: seq<Order>, orderId: string)
    ensures DeleteOrder(a + b, orderId) == DeleteOrder(a, orderId) + DeleteOrder(b, orderId)
  {
    Seqs.FilterAppend(a, b, (o: Order) => o.id != orderId);
  }

  /** Deleting an id twice is deleting it once. */
  lemma DeleteOrderIdempotent(orders: seq<Order>, orderId: string)
    ensures DeleteOrder(DeleteOrder(orders, orderId), orderId) == DeleteOrder(orders, orderId)
  {
    var r := DeleteOrder(orders, orderId);
    assert forall i :: 0 <= i < |r| ==> r[i] in r;
  }

  /** Adding an order whose id is new and then deleting that id restores the list. */
  lemma DeleteUndoesAdd(orders: seq<Order>, order: Order)
    requires forall o :: o in orders ==> o.id != order.id
    ensures DeleteOrder(AddOrder(orders, order), order.id) == orders
  {
    DeleteOrderKeepsOrder(orders, [order], order.id);
    DeleteOrderSpec(orders, order.id);
    assert DeleteOrder([order], order.id) == [];
  }

  // ------------------------------------------------------------ handleScan

  /** The two lists App.tsx keeps. */
  datatype AppData = AppData(orders: seq<Order>, logs: seq<LogEntry>)

  /**
   * handleScan: every call is logged in front of the earlier entries; only a
   * matching call updates the orders with its id.
   */
  function RecordScan(d: AppData, c: ScanCall, device: string, now: nat): AppData
  {
    AppData(
      if c.isMatch then ApplyScan(d.orders, c.orderId, Stamp(c.action, now, device, c.proofImages, c.signature))
      else d.orders,
      [NewLogEntry(c, device, now)] + d.logs)
  }

  /**
   * Each report grows the log by exactly one entry, at the front, recording that
   * call; a non-matching report leaves the orders alone, and a matching one marks
   * exactly the orders with the reported id.
   */
  lemma RecordScanSpec(d: AppData, c: ScanCall, device: string, now: nat)
    ensures var r := RecordScan(d, c, device, now);
      |r.logs| == |d.logs| + 1 && r.logs[1..] == d.logs && CallOf(r.logs[0]) == c
      && |r.orders| == |d.orders|
      && (!c.isMatch ==> r.orders == d.orders)
      && (forall i :: 0 <= i < |d.orders| && d.orders[i].id != c.orderId ==> r.orders[i] == d.orders[i])
      && (c.isMatch ==> forall i :: 0 <= i < |d.orders| && d.orders[i].id == c.orderId ==>
            r.orders[i].status == StatusAfter(c.action) && r.orders[i].lastScannedAt == Some(now))
  {
  }

  /** The log lists reports newest first. */
  lemma LogNewestFirst(d: AppData, c1: ScanCall, c2: ScanCall, device: string, t1: nat, t2: nat)
    ensures RecordScan(RecordScan(d, c1, device, t1), c2, device, t2).logs
      == [NewLogEntry(c2, device, t2), NewLogEntry(c1, device, t1)] + d.logs
  {
  }

  // ------------------------------------------------------------ the component state

  /** The state App holds: the order list, the log and the actor's name. */
  class AppStore {
    var orders: seq<Order>
    var logs: seq<LogEntry>
    var deviceName: string

    function Data(): AppData
      reads this
    {
      AppData(orders, logs)
    }

    /** The orders start as the seed orders, the log empty, the actor unknown. */
    constructor(initialOrders: seq<Order>)
      ensures orders == initialOrders && logs == [] && deviceName == "Unknown Driver"
    {
      orders := initialOrders;
      logs := [];
      deviceName := "Unknown Driver";
    }

    /** The mount effect that looks the device's name up; it runs once, on the initial state. */
    method ResolveDevice(name: Option<string>, model: Option<string>)
      requires deviceName == "Unknown Driver"
      modifies this
      ensures deviceName == ResolveDeviceName(name, model) && Data() == old(Data())
    {
      if name.Some? && name.value != "" {
        deviceName := name.value;
      } else if model.Some? && model.value != "" {
        deviceName := model.value;
      }
    }

    /** handleScan, with Date.now() as the parameter `now`. */
    method HandleScan(c: ScanCall, now: nat)
      modifies this
      ensures Data() == RecordScan(old(Data()), c, deviceName, now) && deviceName == old(deviceName)
    {
      var newLog := NewLogEntry(c, deviceName, now);
      logs := [newLog] + logs;
      if c.isMatch {
        orders := ApplyScan(orders, c.orderId, Stamp(c.action, now, deviceName, c.proofImages, c.signature));
      }
    }

    /** handleAddOrder. */
    method HandleAddOrder(order: Order)
      modifies this
      ensures orders == AddOrder(old(orders), order) && logs == old(logs) && deviceName == old(deviceName)
    {
      orders := orders + [order];
    }

    /** handleDeleteOrder. */
    method HandleDeleteOrder(orderId: string)
      modifies this
      ensures orders == DeleteOrder(old(orders), orderId) && logs == old(logs) && deviceName == old(deviceName)
    {
      orders := DeleteOrder(orders, orderId);
    }
  }
}
