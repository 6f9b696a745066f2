/**
 * The records of the dispatch app (src/types.ts): orders, their line items,
 * trucks and scan-log entries, plus the argument list of the scanner's
 * onScan callback (src/Scanner.tsx:16, App.tsx:30).
 */
module Types {

  datatype Option<T> = None | Some(value: T)

  /** The four order statuses; each carries the string value of the enum. */
  datatype OrderStatus = Created | PickedUp | Loaded | Error

  /** The two things a scan can confirm. */
  datatype ScanAction = Pickup | Load

  datatype Priority = Urgent | Standard | Low

  /** A line item. `qty` is a JavaScript number, kept here as an integer. */
  datatype BoxItem = BoxItem(
    name: string,
    qty: int,
    sku: Option<string>,
    uom: Option<string>,
    description: Option<string>,
    batchNumber: Option<string>,
    expiryDate: Option<string>,
    serialNumber: Option<string>)

  /** A dispatch job. `expectedTruckId` is "" when no truck is assigned. */
  datatype Order = Order(
    id: string,
    hospitalName: string,
    address: Option<string>,
    priority: Option<Priority>,
    status: OrderStatus,
    expectedTruckId: string,
    items: seq<BoxItem>,
    lastAction: Option<ScanAction>,
    lastScannedAt: Option<nat>,
    lastScannedBy: Option<string>,
    proofImages: Option<seq<string>>,
    signature: Option<string>,
    notes: Option<string>)

  datatype Truck = Truck(id: string, name: string, color: string)

  /** One audit record; `truckId` is meant to be present only for a LOAD. */
  datatype LogEntry = LogEntry(
    id: string,
    timestamp: nat,
    orderId: string,
    scannedBy: string,
    action: ScanAction,
    truckId: Option<string>,
    gpsLocation: Option<string>,
    proofImages: Option<seq<string>>,
    signature: Option<string>,
    isMatch: bool,
    notes: Option<string>)

  /** The arguments of one onScan(orderId, action, isMatch, truckId?, proofImages?, gps?, signature?) call. */
  datatype ScanCall = ScanCall(
    orderId: string,
    action: ScanAction,
    isMatch: bool,
    truckId: Option<string>,
    proofImages: Option<seq<string>>,
    gps: Option<string>,
    signature: Option<string>)

  /** The string value of each OrderStatus member. */
  function StatusName(s: OrderStatus): string
  {
    match s
    case Created => "CREATED"
    case PickedUp => "PICKED_UP"
    case Loaded => "LOADED"
    case Error => "ERROR"
  }

  /** Reads an OrderStatus back from its string value; any other string is not a status. */
  function ParseStatus(t: string): (r: Option<OrderStatus>)
    ensures r.Some? ==> StatusName(r.value) == t
  {
    if t == "CREATED" then Some(Created)
    else if t == "PICKED_UP" then Some(PickedUp)
    else if t == "LOADED" then Some(Loaded)
    else if t == "ERROR" then Some(Error)
    else None
  }

  /** The enum has exactly four members and their string values are pairwise distinct. */
  lemma StatusNameRoundTrip(s: OrderStatus)
    ensures ParseStatus(StatusName(s)) == Some(s)
  {
  }

  /** The string value of a ScanAction ('PICKUP' | 'LOAD'). */
  function ActionName(a: ScanAction): (r: string)
    ensures r == "PICKUP" || r == "LOAD"
  {
    match a
    case Pickup => "PICKUP"
    case Load => "LOAD"
  }

  function PriorityName(p: Priority): (r: string)
    ensures r in {"Urgent", "Standard", "Low"}
  {
    match p
    case Urgent => "Urgent"
    case Standard => "Standard"
    case Low => "Low"
  }

  /** An order is assigned to a truck when its expectedTruckId is not the empty string. */
  predicate Assigned(o: Order)
  {
    o.expectedTruckId != ""
  }

  /** A scan call, and the log entry made from it, names a truck only for a LOAD. */
  predicate CallTruckConsistent(c: ScanCall)
  {
    c.truckId.Some? ==> c.action == Load
  }

  predicate EntryTruckConsistent(e: LogEntry)
  {
    e.truckId.Some? ==> e.action == Load
  }
}
