/** The balance laws on small ledgers: a single inbound movement, a single
    transfer, an inbound cancelled by an outbound (whose report is empty),
    and the first five movements of the sample data set. Together with the contract of
    CalculateInventoryBalance these fix the report for each ledger. */
module Scenarios {
  import opened Wrappers
  import opened Ledger
  import opened Balance

  /** A ledger of one inbound movement of q to location l holds exactly q
      at (product name, location name) and nothing anywhere else. */
  lemma SingleInbound(cat: Catalog, p: Id, l: Id, q: int, k: Key)
    requires p in cat.productNames && l in cat.locationNames
    ensures Net([Movement(p, None, Some(l), q)], cat, k) ==
      if k == (cat.productNames[p], cat.locationNames[l]) then q else 0
  {
    InboundEffect([], Movement(p, None, Some(l), q), cat, k);
  }

  /** A ledger of one transfer of q between two differently named locations
      holds -q at the source, +q at the destination, and nothing else. */
  lemma SingleTransfer(cat: Catalog, p: Id, src: Id, dst: Id, q: int, k: Key)
    requires p in cat.productNames && src in cat.locationNames && dst in cat.locationNames
    requires cat.locationNames[src] != cat.locationNames[dst]
    ensures Net([Movement(p, Some(src), Some(dst), q)], cat, (cat.productNames[p], cat.locationNames[src])) == -q
    ensures Net([Movement(p, Some(src), Some(dst), q)], cat, (cat.productNames[p], cat.locationNames[dst])) == q
    ensures k != (cat.productNames[p], cat.locationNames[src]) && k != (cat.productNames[p], cat.locationNames[dst]) ==>
      Net([Movement(p, Some(src), Some(dst), q)], cat, k) == 0
  {
    TransferEffect([], Movement(p, Some(src), Some(dst), q), cat, k);
  }

  /** An inbound q followed by an outbound q at the same pair nets to zero
      everywhere. */
  lemma InboundThenOutbound(cat: Catalog, p: Id, l: Id, q: int, k: Key)
    ensures Net([Movement(p, None, Some(l), q), Movement(p, Some(l), None, q)], cat, k) == 0
  {
    InThenOutCancels([], p, l, q, cat, k);
    assert [] + [Movement(p, None, Some(l), q), Movement(p, Some(l), None, q)]
        == [Movement(p, None, Some(l), q), Movement(p, Some(l), None, q)];
  }

  /** The balance report for an inbound q followed by an outbound q at the
      same pair is empty. */
  method InboundThenOutboundReport(cat: Catalog, p: Id, l: Id, q: int) returns (report: seq<Row>)
    ensures report == []
  {
    report := CalculateInventoryBalance([Movement(p, None, Some(l), q), Movement(p, Some(l), None, q)], cat);
    if |report| > 0 {
      InboundThenOutbound(cat, p, l, q, RowKey(report[0]));
    }
  }

  /** The catalogue of the sample data set: products 1-3 and locations 1-3. */
  function SeedCatalog(): Catalog
  {
    Catalog(map["1" := "Laptop Pro", "2" := "Monitor 27\"", "3" := "Keyboard Mech"],
            map["1" := "Warehouse A", "2" := "Shop Floor", "3" := "Receiving Dock"])
  }

  /** The first five movements of the sample data set: Laptop Pro +50 to
      Warehouse A, Monitor 27" +100 to Warehouse A, Laptop Pro +10 to Shop
      Floor, Laptop Pro 5 from Warehouse A to Shop Floor, Laptop Pro 1 out of
      Shop Floor. */
  function SeedOpeningLedger(): seq<Movement>
  {
    [ Movement("1", None, Some("1"), 50),
      Movement("2", None, Some("1"), 100),
      Movement("1", None, Some("2"), 10),
      Movement("1", Some("1"), Some("2"), 5),
      Movement("1", Some("2"), None, 1) ]
  }

  /** The opening of the sample data set nets to 45 Laptop Pro and 100
      Monitor 27" at Warehouse A, 14 Laptop Pro at Shop Floor, and to nothing
      else. */
  lemma SeedOpening(k: Key)
    ensures Net(SeedOpeningLedger(), SeedCatalog(), ("Laptop Pro", "Warehouse A")) == 45
    ensures Net(SeedOpeningLedger(), SeedCatalog(), ("Monitor 27\"", "Warehouse A")) == 100
    ensures Net(SeedOpeningLedger(), SeedCatalog(), ("Laptop Pro", "Shop Floor")) == 14
    ensures k !in {("Laptop Pro", "Warehouse A"), ("Monitor 27\"", "Warehouse A"), ("Laptop Pro", "Shop Floor")} ==>
      Net(SeedOpeningLedger(), SeedCatalog(), k) == 0
  {
    var cat := SeedCatalog();
    var ledger := SeedOpeningLedger();
    var m1, m2, m3, m4, m5 := ledger[0], ledger[1], ledger[2], ledger[3], ledger[4];
    var laptopA, monitorA, laptopShop := ("Laptop Pro", "Warehouse A"), ("Monitor 27\"", "Warehouse A"), ("Laptop Pro", "Shop Floor");
    assert [] + [m1] == [m1];
    assert ledger == [m1] + [m2] + [m3] + [m4] + [m5];
    forall x: Key ensures Net([m1], cat, x) == if x == laptopA then 50 else 0 {
      InboundEffect([], m1, cat, x);
    }
    forall x: Key ensures Net([m1] + [m2], cat, x) == Net([m1], cat, x) + (if x == monitorA then 100 else 0) {
      InboundEffect([m1], m2, cat, x);
    }
    forall x: Key ensures Net([m1] + [m2] + [m3], cat, x) == Net([m1] + [m2], cat, x) +
        (if x == laptopShop then 10 else 0) {
      InboundEffect([m1] + [m2], m3, cat, x);
    }
    forall x: Key ensures Net([m1] + [m2] + [m3] + [m4], cat, x) == Net([m1] + [m2] + [m3], cat, x) +
        (if x == laptopShop then 5 else 0) - (if x == laptopA then 5 else 0) {
      TransferEffect([m1] + [m2] + [m3], m4, cat, x);
    }
    forall x: Key ensures Net([m1] + [m2] + [m3] + [m4] + [m5], cat, x) == Net([m1] + [m2] + [m3] + [m4], cat, x) -
        (if x == laptopShop then 1 else 0) {
      OutboundEffect([m1] + [m2] + [m3] + [m4], m5, cat, x);
    }
  }
}
