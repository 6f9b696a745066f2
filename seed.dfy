/**
 * The static reference data the app starts with (src/constants.ts): four trucks
 * and four orders, all CREATED, each assigned to one of the trucks.
 */
module Seed {
  import opened Types
  import Text

  const INITIAL_TRUCKS: seq<Truck> := [
    Truck("TRUCK-A", "Truck A (North)", "bg-blue-100 text-blue-800"),
    Truck("TRUCK-B", "Truck B (South)", "bg-green-100 text-green-800"),
    Truck("TRUCK-C", "Truck C (City)", "bg-purple-100 text-purple-800"),
    Truck("TRUCK-D", "Express Van", "bg-orange-100 text-orange-800")
  ]

  const ORDER_KL_001: Order := Order("JOB-KL-001", "General Hospital KL - OT Room 3",
    Some("Jalan Pahang, 50586 Kuala Lumpur, Wilayah Persekutuan"), Some(Urgent), Created, "TRUCK-A",
    [ BoxItem("Medical Gas Alarm Panel", 1, Some("MG-ALM-001"), Some("Unit"), Some("Zone 3 Area Alarm"),
        Some("B-2023-99"), Some("N/A"), None),
      BoxItem("Copper Pipes 15mm", 20, Some("CP-15MM-X"), Some("Length"), Some("Medical Grade Copper Type L"),
        Some("CP-99281"), None, None) ],
    None, None, None, None, None, Some("Fragile items. Handle with care."))

  const ORDER_SJ_102: Order := Order("JOB-SJ-102", "Subang Jaya Med Center",
    Some("1, Jalan SS 12/1A, 47500 Subang Jaya, Selangor"), Some(Standard), Created, "TRUCK-B",
    [ BoxItem("Surgical Light Kit", 1, Some("SL-KIT-LED"), Some("Set"), Some("Dual Head LED Surgical Light"),
        None, Some("2030-12-31"), Some("SN: 9982-1120-AA")) ],
    None, None, None, None, None, None)

  const ORDER_KL_003: Order := Order("JOB-KL-003", "General Hospital KL - Ward 4",
    Some("Jalan Pahang, 50586 Kuala Lumpur, Wilayah Persekutuan"), Some(Standard), Created, "TRUCK-A",
    [ BoxItem("HVAC Filters", 12, Some("FIL-HEPA-04"), Some("Box"), Some("HEPA Filters 24x24"), None, None, None),
      BoxItem("Duct Tape", 5, Some("MSC-TAPE"), Some("Roll"), None, None, None, None) ],
    None, None, None, None, None, None)

  const ORDER_PN_104: Order := Order("JOB-PN-104", "Penang General",
    Some("Jalan Residensi, 10990 George Town, Pulau Pinang"), Some(Low), Created, "TRUCK-C",
    [ BoxItem("Reception Desk Legs", 4, Some("FUR-DSK-LG"), Some("Pcs"), None, None, None, None),
      BoxItem("Table Top", 1, Some("FUR-DSK-TP"), Some("Unit"), None, None, None, None) ],
    None, None, None, None, None, None)

  const INITIAL_ORDERS: seq<Order> := [ORDER_KL_001, ORDER_SJ_102, ORDER_KL_003, ORDER_PN_104]

  /** No two seed trucks share an id. */
  lemma SeedTruckIdsDistinct()
    ensures forall i, j :: 0 <= i < j < |INITIAL_TRUCKS| ==> INITIAL_TRUCKS[i].id != INITIAL_TRUCKS[j].id
  {
  }

  /** No two seed orders share an id. */
  lemma SeedOrderIdsDistinct()
    ensures forall i, j :: 0 <= i < j < |INITIAL_ORDERS| ==> INITIAL_ORDERS[i].id != INITIAL_ORDERS[j].id
  {
  }

  /** Every seed order is assigned, to a truck that exists. */
  lemma SeedOrdersOnSeedTrucks()
    ensures forall o :: o in INITIAL_ORDERS ==>
      Assigned(o) && exists t :: t in INITIAL_TRUCKS && t.id == o.expectedTruckId
  {
    assert INITIAL_ORDERS[0].expectedTruckId == INITIAL_TRUCKS[0].id;
    assert INITIAL_ORDERS[1].expectedTruckId == INITIAL_TRUCKS[1].id;
    assert INITIAL_ORDERS[2].expectedTruckId == INITIAL_TRUCKS[0].id;
    assert INITIAL_ORDERS[3].expectedTruckId == INITIAL_TRUCKS[2].id;
  }

  /** Every seed order starts CREATED, never scanned, with at least one item. */
  lemma SeedOrdersFresh()
    ensures forall o :: o in INITIAL_ORDERS ==>
      o.status == Created && |o.items| >= 1 && o.lastAction.None? && o.proofImages.None?
  {
  }

  /** Every seed item has a name that is not blank and a positive quantity. */
  lemma SeedItemsWellFormed()
    ensures forall o, it :: o in INITIAL_ORDERS && it in o.items ==> Text.Trim(it.name) != "" && it.qty > 0
  {
    forall o, it | o in INITIAL_ORDERS && it in o.items
      ensures Text.Trim(it.name) != "" && it.qty > 0
    {
      assert it.name != "" && !Text.IsJsWhitespace(it.name[0]);
      Text.TrimEmptyIffBlank(it.name);
    }
  }
}
