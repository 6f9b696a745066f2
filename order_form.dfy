/**
 * The order-creation form of src/Dashboard.tsx: the item list being edited,
 * the checks and the filtering that turn the form into a new CREATED order,
 * the reset afterwards, the quantity field's number parsing, and the status
 * badge shown for each order.
 */
module OrderForm {
  import opened Types
  import opened Text
  import Seqs
  import Seed

  // ------------------------------------------------------------ items

  /** The row the form starts with and that "Add Item" appends: no name, quantity 1. */
  const BLANK_ITEM: BoxItem := BoxItem("", 1, None, None, None, None, None, None)

  /** The two fields the item rows edit. */
  datatype ItemChange = SetName(name: string) | SetQty(qty: int)

  function ChangeItem(item: BoxItem, change: ItemChange): BoxItem
  {
    match change
    case SetName(n) => item.(name := n)
    case SetQty(q) => item.(qty := q)
  }

  /** handleItemChange: writes one field of the row at `index`. */
  function ChangeItemAt(items: seq<BoxItem>, index: nat, change: ItemChange): seq<BoxItem>
    requires index < |items|
  {
    items[index := ChangeItem(items[index], change)]
  }

  /** An edit touches only the named field of the row at `index`; every other row and field stays. */
  lemma ChangeItemAtSpec(items: seq<BoxItem>, index: nat, change: ItemChange)
    requires index < |items|
    ensures var r := ChangeItemAt(items, index, change);
      |r| == |items|
      && (forall j :: 0 <= j < |items| && j != index ==> r[j] == items[j])
      && (change.SetName? ==> r[index].name == change.name && r[index].(name := items[index].name) == items[index])
      && (change.SetQty? ==> r[index].qty == change.qty && r[index].(qty := items[index].qty) == items[index])
  {
  }

  /** handleRemoveItem: drops the row at `index`, but never the last remaining row. */
  function RemoveItem(items: seq<BoxItem>, index: nat): seq<BoxItem>
  {
    if |items| > 1 then Seqs.RemoveAt(items, index) else items
  }

  /**
   * Removing keeps at least one row: with several rows it drops exactly the row at
   * `index` (an index past the end changes nothing), and a single row is never removed.
   */
  lemma RemoveItemSpec(items: seq<BoxItem>, index: nat)
    requires |items| >= 1
    ensures var r := RemoveItem(items, index);
      |r| >= 1
      && (|items| > 1 && index < |items| ==> r == items[..index] + items[index + 1..])
      && (|items| == 1 || index >= |items| ==> r == items)
  {
  }

  /** The quantity field: `parseInt(text) || 1`, so NaN and 0 both become 1. */
  function ParseQty(text: string): (r: int)
    ensures r != 0
    ensures ParseInt(text).NaN? || ParseInt(text) == Num(0) ==> r == 1
    ensures ParseInt(text).Num? && ParseInt(text).value != 0 ==> r == ParseInt(text).value
  {
    match ParseInt(text)
    case NaN => 1
    case Num(v) => if v == 0 then 1 else v
  }

  /** The field shows `qty.toString()`; reading a positive quantity back gives that quantity. */
  lemma ParseQtyOfShown(n: nat)
    requires n >= 1
    ensures ParseQty(NatToString(n)) == n
  {
    ParseIntOfNatToString(n);
  }

  /** Text without digits, and a typed zero, both fall back to quantity 1. */
  lemma ParseQtyFallback()
    ensures ParseQty("") == 1 && ParseQty("abc") == 1 && ParseQty("0") == 1
  {
    assert DigitPrefix("0", 10) == "0";
    assert DigitPrefix("abc", 10) == [];
  }

  /** Nothing stops a negative quantity: "-3" is stored as -3. */
  lemma ParseQtyKeepsNegative()
    ensures ParseQty("-3") == -3
  {
    var u := "-3"[1..];
    assert u == "3";
    assert DigitPrefix(u, 10) == "3";
    assert RadixValue("3", 10) == 3 by {
      assert "3"[..0] == [];
    }
  }

  // ------------------------------------------------------------ submit

  /** `items.every(i => !i.name.trim())`: no row has a name that is not blank. */
  predicate AllBlank(items: seq<BoxItem>)
  {
    forall i :: 0 <= i < |items| ==> Trim(items[i].name) == ""
  }

  /** `items.filter(i => i.name.trim() !== '')`. */
  function ValidItems(items: seq<BoxItem>): seq<BoxItem>
  {
    Seqs.Filter(items, (it: BoxItem) => Trim(it.name) != "")
  }

  /**
   * The kept rows are exactly the rows with a non-blank name, in the same order;
   * there is at least one exactly when not every row is blank.
   */
  lemma ValidItemsSpec(items: seq<BoxItem>)
    ensures var v := ValidItems(items);
      |v| <= |items|
      && (forall it :: it in v <==> it in items && Trim(it.name) != "")
      && (|v| > 0 <==> !AllBlank(items))
  {
    var v := ValidItems(items);
    if !AllBlank(items) {
      var i :| 0 <= i < |items| && Trim(items[i].name) != "";
      assert items[i] in v;
    }
    if |v| > 0 {
      assert v[0] in v;
    }
  }

  /** Filtering keeps the input order: it distributes over concatenation. */
  lemma ValidItemsKeepOrder(a: seq<BoxItem>, b: seq<BoxItem>)
    ensures ValidItems(a + b) == ValidItems(a) + ValidItems(b)
  {
    Seqs.FilterAppend(a, b, (it: BoxItem) => Trim(it.name) != "");
  }

  /** `!hospitalName || !expectedTruckId || items.every(...)`; the name is not trimmed. */
  predicate SubmitRejected(hospitalName: string, truckId: string, items: seq<BoxItem>)
  {
    hospitalName == "" || truckId == "" || AllBlank(items)
  }

  /** The id of a new job: "JOB-" and the number drawn in 1000..9999. */
  function JobId(n: nat): string
  {
    "JOB-" + NatToString(n)
  }

  /** A job id is "JOB-" and four digits, and those digits read back as the number drawn. */
  lemma JobIdShape(n: nat)
    requires 1000 <= n <= 9999
    ensures var id := JobId(n);
      |id| == 8 && id[..4] == "JOB-" && ParseInt(id[4..]) == Num(n)
      && forall i :: 4 <= i < 8 ==> IsDecimalDigit(id[i])
  {
    assert |NatToString(n / 1000)| == 1;
    assert |NatToString(n / 100)| == 2;
    assert |NatToString(n / 10)| == 3;
    assert JobId(n)[4..] == NatToString(n);
    ParseIntOfNatToString(n);
  }

  /** Different draws give different ids. */
  lemma JobIdInjective(m: nat, n: nat)
    requires JobId(m) == JobId(n)
    ensures m == n
  {
    assert JobId(m)[4..] == NatToString(m);
    assert JobId(n)[4..] == NatToString(n);
    NatToStringInjective(m, n);
  }

  /** A generated id never collides with a seed order's id: those have letters after "JOB-". */
  lemma JobIdAvoidsSeed(n: nat)
    requires 1000 <= n <= 9999
    ensures forall o :: o in Seed.INITIAL_ORDERS ==> o.id != JobId(n)
  {
    JobIdShape(n);
    var id := JobId(n);
    assert IsDecimalDigit(id[4]);
    forall o | o in Seed.INITIAL_ORDERS ensures o.id != id {
      assert !IsDecimalDigit(o.id[4]);
    }
  }

  /** The order handleSubmit builds: CREATED, the form's destination and truck, the kept rows. */
  function NewOrder(hospitalName: string, truckId: string, items: seq<BoxItem>, n: nat): Order
  {
    Order(JobId(n), hospitalName, None, None, Created, truckId, ValidItems(items),
      None, None, None, None, None, None)
  }

  /** handleSubmit's result: the order handed to onAddOrder, or nothing when the form is rejected. */
  function Submit(hospitalName: string, truckId: string, items: seq<BoxItem>, n: nat): Option<Order>
  {
    if SubmitRejected(hospitalName, truckId, items) then None
    else Some(NewOrder(hospitalName, truckId, items, n))
  }

  /**
   * A submit is refused exactly when the destination or the truck is empty or every
   * row is blank. An accepted one yields a CREATED, assigned, never-scanned order with
   * a "JOB-" id whose items are the non-blank rows, at least one of them.
   */
  lemma SubmitSpec(hospitalName: string, truckId: string, items: seq<BoxItem>, n: nat)
    requires 1000 <= n <= 9999
    ensures var r := Submit(hospitalName, truckId, items, n);
      (r.None? <==> hospitalName == "" || truckId == "" || AllBlank(items))
      && (r.Some? ==>
            var o := r.value;
            o.status == Created && o.hospitalName == hospitalName && o.expectedTruckId == truckId
            && Assigned(o) && o.id[..4] == "JOB-" && ParseInt(o.id[4..]) == Num(n)
            && |o.items| >= 1 && o.items == ValidItems(items)
            && (forall it :: it in o.items ==> Trim(it.name) != "")
            && o.lastAction.None? && o.proofImages.None?)
  {
    ValidItemsSpec(items);
    JobIdShape(n);
  }

  /** `trucks[0]?.id || ''`: the first truck's id, or "" when there is none. */
  function DefaultTruckId(trucks: seq<Truck>): (r: string)
    ensures |trucks| > 0 ==> r == trucks[0].id
    ensures |trucks| == 0 ==> r == ""
  {
    if |trucks| > 0 && trucks[0].id != "" then trucks[0].id else ""
  }

  // ------------------------------------------------------------ badge

  /** getStatusBadge: the label shown for a status. */
  function StatusBadge(status: OrderStatus): string
  {
    match status
    case Loaded => "IN TRANSIT"
    case PickedUp => "WAREHOUSE"
    case _ => "CREATED"
  }

  /**
   * LOADED shows "IN TRANSIT", PICKED_UP "WAREHOUSE", and everything else, ERROR
   * included, "CREATED"; so two statuses share a badge only if neither was scanned.
   */
  lemma StatusBadgeSpec(status: OrderStatus)
    ensures StatusBadge(status) == "IN TRANSIT" <==> status == Loaded
    ensures StatusBadge(status) == "WAREHOUSE" <==> status == PickedUp
    ensures StatusBadge(status) == "CREATED" <==> status == Created || status == Error
  {
  }

  // ------------------------------------------------------------ the form

  /** The Dashboard's form state. */
  class Form {
    var isModalOpen: bool
    var hospitalName: string
    var expectedTruckId: string
    var items: seq<BoxItem>

    /** The form always shows at least one row. */
    predicate Valid()
      reads this
    {
      |items| >= 1
    }

    constructor()
      ensures Valid() && !isModalOpen && hospitalName == "" && expectedTruckId == "" && items == [BLANK_ITEM]
    {
      isModalOpen := false;
      hospitalName := "";
      expectedTruckId := "";
      items := [BLANK_ITEM];
    }

    /** Opening the modal; its effect preselects the first truck when none is chosen. */
    method Open(trucks: seq<Truck>)
      modifies this
      ensures isModalOpen && hospitalName == old(hospitalName) && items == old(items)
      ensures expectedTruckId == if old(expectedTruckId) == "" && |trucks| > 0 then trucks[0].id else old(expectedTruckId)
    {
      isModalOpen := true;
      if expectedTruckId == "" && |trucks| > 0 {
        expectedTruckId := trucks[0].id;
      }
    }

    /** The Cancel button: closes the modal and keeps what was typed. */
    method Cancel()
      modifies this
      ensures !isModalOpen && hospitalName == old(hospitalName) && expectedTruckId == old(expectedTruckId)
      ensures items == old(items)
    {
      isModalOpen := false;
    }

    method SetHospitalName(text: string)
      modifies this
      ensures hospitalName == text && isModalOpen == old(isModalOpen) && expectedTruckId == old(expectedTruckId)
      ensures items == old(items)
    {
      hospitalName := text;
    }

    /** A row of the truck picker. */
    method SelectTruck(truck: Truck)
      modifies this
      ensures expectedTruckId == truck.id && isModalOpen == old(isModalOpen) && hospitalName == old(hospitalName)
      ensures items == old(items)
    {
      expectedTruckId := truck.id;
    }

    /** handleAddItem. */
    method HandleAddItem()
      requires Valid()
      modifies this
      ensures Valid() && items == old(items) + [BLANK_ITEM]
      ensures isModalOpen == old(isModalOpen) && hospitalName == old(hospitalName)
      ensures expectedTruckId == old(expectedTruckId)
    {
      items := items + [BLANK_ITEM];
    }

    /** handleRemoveItem. */
    method HandleRemoveItem(index: nat)
      requires Valid()
      modifies this
      ensures Valid() && items == RemoveItem(old(items), index)
      ensures isModalOpen == old(isModalOpen) && hospitalName == old(hospitalName)
      ensures expectedTruckId == old(expectedTruckId)
    {
      RemoveItemSpec(items, index);
      if |items| > 1 {
        items := Seqs.RemoveAt(items, index);
      }
    }

    /** handleItemChange, for a row that is on screen. */
    method HandleItemChange(index: nat, change: ItemChange)
      requires Valid() && index < |items|
      modifies this
      ensures Valid() && items == ChangeItemAt(old(items), index, change)
      ensures isModalOpen == old(isModalOpen) && hospitalName == old(hospitalName)
      ensures expectedTruckId == old(expectedTruckId)
    {
      var newItems := items;
      newItems := newItems[index := ChangeItem(newItems[index], change)];
      items := newItems;
    }

    /** The quantity field's change handler. */
    method HandleQtyText(index: nat, text: string)
      requires Valid() && index < |items|
      modifies this
      ensures Valid() && items == ChangeItemAt(old(items), index, SetQty(ParseQty(text)))
      ensures isModalOpen == old(isModalOpen) && hospitalName == old(hospitalName)
      ensures expectedTruckId == old(expectedTruckId)
    {
      HandleItemChange(index, SetQty(ParseQty(text)));
    }

    /**
     * handleSubmit, with the random draw as `n`. A rejected form is left as it was;
     * an accepted one yields the new order, closes the modal and resets the fields.
     */
    method HandleSubmit(trucks: seq<Truck>, n: nat) returns (added: Option<Order>)
      requires Valid() && 1000 <= n <= 9999
      modifies this
      ensures Valid()
      ensures added == Submit(old(hospitalName), old(expectedTruckId), old(items), n)
      ensures added.None? ==>
        isModalOpen == old(isModalOpen) && hospitalName == old(hospitalName)
        && expectedTruckId == old(expectedTruckId) && items == old(items)
      ensures added.Some? ==>
        !isModalOpen && hospitalName == "" && items == [BLANK_ITEM] && expectedTruckId == DefaultTruckId(trucks)
    {
      if hospitalName == "" || expectedTruckId == "" || AllBlank(items) {
        return None;
      }
      var validItems := ValidItems(items);
      var order := Order(JobId(n), hospitalName, None, None, Created, expectedTruckId, validItems,
        None, None, None, None, None, None);
      added := Some(order);
      isModalOpen := false;
      hospitalName := "";
      items := [BLANK_ITEM];
      expectedTruckId := DefaultTruckId(trucks);
    }
  }
}
