/** The movement ledger and the per-(product, location) sums that the
    inventory balance is built from.

    A movement names its product by id and its endpoints by location id;
    the balance report groups by product NAME and location NAME, which are
    found by joining against the product and location tables (the Catalog).
    A movement whose product id or endpoint id has no row in the catalog
    drops out of that pass, as an inner join drops it. */
module Ledger {
  import opened Wrappers

  type Id = string
  type Name = string

  /** Grouping key of the balance: (product name, location name). */
  type Key = (Name, Name)

  /** One ledger row: product id, optional source and destination location
      ids, and the quantity column (an unconstrained integer in the table). */
  datatype Movement = Movement(product: Id, from: Option<Id>, to: Option<Id>, qty: int)

  /** The product and location tables, as maps from id to name. */
  datatype Catalog = Catalog(productNames: map<Id, Name>, locationNames: map<Id, Name>)

  /** The two aggregation passes: incoming joins on the destination,
      outgoing on the source. */
  datatype Pass = Incoming | Outgoing

  function Endpoint(m: Movement, pass: Pass): Option<Id>
  {
    match pass
    case Incoming => m.to
    case Outgoing => m.from
  }

  /** The group a movement falls into in one pass, or None when the inner
      joins leave it out (no endpoint, or an id with no table row). */
  function KeyOf(cat: Catalog, m: Movement, pass: Pass): (r: Option<Key>)
    ensures r.Some? <==>
      m.product in cat.productNames && Endpoint(m, pass).Some? && Endpoint(m, pass).value in cat.locationNames
    ensures r.Some? ==> r.value.0 in cat.productNames.Values && r.value.1 in cat.locationNames.Values
  {
    var loc := Endpoint(m, pass);
    if m.product in cat.productNames && loc.Some? && loc.value in cat.locationNames
    then Some((cat.productNames[m.product], cat.locationNames[loc.value]))
    else None
  }

  /** What one movement adds to group k in one pass. */
  function Contribution(cat: Catalog, m: Movement, pass: Pass, k: Key): int
  {
    if KeyOf(cat, m, pass) == Some(k) then m.qty else 0
  }

  /** Every movement carries a positive quantity, as admission demands. */
  ghost predicate PositiveQuantities(ledger: seq<Movement>)
  {
    forall i :: 0 <= i < |ledger| ==> ledger[i].qty > 0
  }

  /** SUM(qty) over the movements of group k in one pass; never negative on
      a ledger of positive quantities. */
  function Sum(ledger: seq<Movement>, cat: Catalog, pass: Pass, k: Key): (r: int)
    ensures PositiveQuantities(ledger) ==> r >= 0
  {
    if ledger == [] then 0
    else Sum(ledger[..|ledger| - 1], cat, pass, k) + Contribution(cat, ledger[|ledger| - 1], pass, k)
  }

  /** Some movement of the ledger falls into group k in this pass. */
  ghost predicate Mentions(ledger: seq<Movement>, cat: Catalog, pass: Pass, k: Key)
  {
    exists i :: 0 <= i < |ledger| && KeyOf(cat, ledger[i], pass) == Some(k)
  }

  /** The groups of a GROUP BY over one pass: exactly the keys some movement
      falls into. */
  function GroupKeys(ledger: seq<Movement>, cat: Catalog, pass: Pass): (r: set<Key>)
    ensures forall k :: k in r <==> Mentions(ledger, cat, pass, k)
  {
    if ledger == [] then {}
    else
      var n := |ledger| - 1;
      var prefix := GroupKeys(ledger[..n], cat, pass);
      assert forall k :: Mentions(ledger, cat, pass, k) <==>
        Mentions(ledger[..n], cat, pass, k) || KeyOf(cat, ledger[n], pass) == Some(k) by {
        forall k ensures Mentions(ledger, cat, pass, k) <==>
          Mentions(ledger[..n], cat, pass, k) || KeyOf(cat, ledger[n], pass) == Some(k) {
          if Mentions(ledger, cat, pass, k) {
            var i :| 0 <= i < |ledger| && KeyOf(cat, ledger[i], pass) == Some(k);
            if i < n { assert ledger[..n][i] == ledger[i]; }
          }
          if Mentions(ledger[..n], cat, pass, k) {
            var i :| 0 <= i < n && KeyOf(cat, ledger[..n][i], pass) == Some(k);
            assert ledger[..n][i] == ledger[i];
          }
        }
      }
      match KeyOf(cat, ledger[n], pass)
      case None => prefix
      case Some(k) => prefix + {k}
  }

  /** The result of one grouped SUM query: one row per group, carrying the
      sum of the group's quantities. */
  function GroupedSums(ledger: seq<Movement>, cat: Catalog, pass: Pass): (r: map<Key, int>)
    ensures forall k :: k in r <==> Mentions(ledger, cat, pass, k)
    ensures forall k :: k in r ==> r[k] == Sum(ledger, cat, pass, k)
  {
    map k | k in GroupKeys(ledger, cat, pass) :: Sum(ledger, cat, pass, k)
  }

  /** The net balance of group k: incoming sum minus outgoing sum. With
      positive quantities it lies between minus the outflow and the inflow. */
  function Net(ledger: seq<Movement>, cat: Catalog, k: Key): (r: int)
    ensures PositiveQuantities(ledger) ==>
      -Sum(ledger, cat, Outgoing, k) <= r <= Sum(ledger, cat, Incoming, k)
  {
    Sum(ledger, cat, Incoming, k) - Sum(ledger, cat, Outgoing, k)
  }

  /** What one movement changes the net balance of group k by. */
  function Effect(cat: Catalog, m: Movement, k: Key): int
  {
    Contribution(cat, m, Incoming, k) - Contribution(cat, m, Outgoing, k)
  }

  /** Reference definition of the net balance, one movement at a time:
      the sum of every movement's effect on group k. */
  function NetByMovement(ledger: seq<Movement>, cat: Catalog, k: Key): int
  {
    if ledger == [] then 0 else Effect(cat, ledger[0], k) + NetByMovement(ledger[1..], cat, k)
  }

  // ---------------------------------------------------------------------
  // Properties of the sums

  /** A group no movement falls into sums to zero. */
  lemma {:induction false} SumOfUnmentioned(ledger: seq<Movement>, cat: Catalog, pass: Pass, k: Key)
    requires !Mentions(ledger, cat, pass, k)
    ensures Sum(ledger, cat, pass, k) == 0
  {
    if ledger != [] {
      var n := |ledger| - 1;
      forall i | 0 <= i < n ensures KeyOf(cat, ledger[..n][i], pass) != Some(k) {
        assert ledger[..n][i] == ledger[i];
      }
      SumOfUnmentioned(ledger[..n], cat, pass, k);
    }
  }

  /** A group whose net balance is non-zero is a group of one of the two
      queries, so it reaches the balances dictionary. */
  lemma NonzeroNetIsGrouped(ledger: seq<Movement>, cat: Catalog, k: Key)
    requires Net(ledger, cat, k) != 0
    ensures k in GroupKeys(ledger, cat, Incoming) || k in GroupKeys(ledger, cat, Outgoing)
  {
    if !Mentions(ledger, cat, Incoming, k) && !Mentions(ledger, cat, Outgoing, k) {
      SumOfUnmentioned(ledger, cat, Incoming, k);
      SumOfUnmentioned(ledger, cat, Outgoing, k);
    }
  }

  /** Appending one movement adds exactly its contribution to each sum. */
  lemma SumAppend(ledger: seq<Movement>, m: Movement, cat: Catalog, pass: Pass, k: Key)
    ensures Sum(ledger + [m], cat, pass, k) == Sum(ledger, cat, pass, k) + Contribution(cat, m, pass, k)
  {
    assert (ledger + [m])[..|ledger|] == ledger;
  }

  /** Sums distribute over concatenation of ledgers. */
  lemma {:induction false} SumConcat(a: seq<Movement>, b: seq<Movement>, cat: Catalog, pass: Pass, k: Key)
    ensures Sum(a + b, cat, pass, k) == Sum(a, cat, pass, k) + Sum(b, cat, pass, k)
  {
    if b == [] {
      assert a + b == a;
    } else {
      var n := |b| - 1;
      assert a + b == (a + b[..n]) + [b[n]];
      assert b == b[..n] + [b[n]];
      SumConcat(a, b[..n], cat, pass, k);
      SumAppend(a + b[..n], b[n], cat, pass, k);
      SumAppend(b[..n], b[n], cat, pass, k);
    }
  }

  /** Appending one movement changes every net balance by that movement's
      effect: +qty at its resolved destination, -qty at its resolved source.
      A movement with both endpoints is counted once in each pass. */
  lemma NetAppend(ledger: seq<Movement>, m: Movement, cat: Catalog, k: Key)
    ensures Net(ledger + [m], cat, k) == Net(ledger, cat, k) + Effect(cat, m, k)
  {
    SumAppend(ledger, m, cat, Incoming, k);
    SumAppend(ledger, m, cat, Outgoing, k);
  }

  /** Net balances distribute over concatenation of ledgers. */
  lemma NetConcat(a: seq<Movement>, b: seq<Movement>, cat: Catalog, k: Key)
    ensures Net(a + b, cat, k) == Net(a, cat, k) + Net(b, cat, k)
  {
    SumConcat(a, b, cat, Incoming, k);
    SumConcat(a, b, cat, Outgoing, k);
  }

  /** The two grouped passes agree with the movement-by-movement reference:
      a transfer counted once in each pass is the same as one movement with
      two effects. */
  lemma {:induction false} NetIsNetByMovement(ledger: seq<Movement>, cat: Catalog, k: Key)
    ensures Net(ledger, cat, k) == NetByMovement(ledger, cat, k)
  {
    if ledger != [] {
      NetIsNetByMovement(ledger[1..], cat, k);
      assert ledger == [ledger[0]] + ledger[1..];
      NetConcat([ledger[0]], ledger[1..], cat, k);
      NetAppend([], ledger[0], cat, k);
      assert [] + [ledger[0]] == [ledger[0]];
    }
  }

  // ---------------------------------------------------------------------
  // The three movement shapes

  /** An inbound movement (only `to`, resolving) adds its quantity to
      (product name, destination name) and nothing else. */
  lemma InboundEffect(ledger: seq<Movement>, m: Movement, cat: Catalog, k: Key)
    requires m.from == None && m.to.Some?
    requires m.product in cat.productNames && m.to.value in cat.locationNames
    ensures Net(ledger + [m], cat, k) ==
      Net(ledger, cat, k) + (if k == (cat.productNames[m.product], cat.locationNames[m.to.value]) then m.qty else 0)
  {
    NetAppend(ledger, m, cat, k);
  }

  /** An outbound movement (only `from`, resolving) subtracts its quantity
      from (product name, source name) and nothing else. */
  lemma OutboundEffect(ledger: seq<Movement>, m: Movement, cat: Catalog, k: Key)
    requires m.from.Some? && m.to == None
    requires m.product in cat.productNames && m.from.value in cat.locationNames
    ensures Net(ledger + [m], cat, k) ==
      Net(ledger, cat, k) - (if k == (cat.productNames[m.product], cat.locationNames[m.from.value]) then m.qty else 0)
  {
    NetAppend(ledger, m, cat, k);
  }

  /** A transfer between two locations with different names moves its
      quantity: -qty at the source group, +qty at the destination group,
      every other group unchanged, and the total over the two conserved. */
  lemma TransferEffect(ledger: seq<Movement>, m: Movement, cat: Catalog, k: Key)
    requires m.from.Some? && m.to.Some?
    requires m.product in cat.productNames && m.from.value in cat.locationNames && m.to.value in cat.locationNames
    requires cat.locationNames[m.from.value] != cat.locationNames[m.to.value]
    ensures var src := (cat.productNames[m.product], cat.locationNames[m.from.value]);
            var dst := (cat.productNames[m.product], cat.locationNames[m.to.value]);
            && Net(ledger + [m], cat, src) == Net(ledger, cat, src) - m.qty
            && Net(ledger + [m], cat, dst) == Net(ledger, cat, dst) + m.qty
            && (k != src && k != dst ==> Net(ledger + [m], cat, k) == Net(ledger, cat, k))
            && Net(ledger + [m], cat, src) + Net(ledger + [m], cat, dst) == Net(ledger, cat, src) + Net(ledger, cat, dst)
  {
    var src := (cat.productNames[m.product], cat.locationNames[m.from.value]);
    var dst := (cat.productNames[m.product], cat.locationNames[m.to.value]);
    NetAppend(ledger, m, cat, src);
    NetAppend(ledger, m, cat, dst);
    NetAppend(ledger, m, cat, k);
  }

  /** A self-transfer (`from` = `to`) changes no net balance: it is counted
      +qty and -qty at the same group. */
  lemma SelfTransferIsNeutral(ledger: seq<Movement>, m: Movement, cat: Catalog, k: Key)
    requires m.from.Some? && m.from == m.to
    ensures Net(ledger + [m], cat, k) == Net(ledger, cat, k)
  {
    NetAppend(ledger, m, cat, k);
  }

  /** A movement that neither pass can join (no endpoint, or ids without a
      table row) changes no net balance. */
  lemma UnjoinedMovementIsInert(ledger: seq<Movement>, m: Movement, cat: Catalog, k: Key)
    requires KeyOf(cat, m, Incoming) == None && KeyOf(cat, m, Outgoing) == None
    ensures Net(ledger + [m], cat, k) == Net(ledger, cat, k)
  {
    NetAppend(ledger, m, cat, k);
  }

  /** An inbound Q followed by an outbound Q of the same product at the same
      location leaves every net balance as it was. */
  lemma InThenOutCancels(ledger: seq<Movement>, product: Id, loc: Id, q: int, cat: Catalog, k: Key)
    ensures Net(ledger + [Movement(product, None, Some(loc), q), Movement(product, Some(loc), None, q)], cat, k)
         == Net(ledger, cat, k)
  {
    var inbound := Movement(product, None, Some(loc), q);
    var outbound := Movement(product, Some(loc), None, q);
    assert ledger + [inbound, outbound] == (ledger + [inbound]) + [outbound];
    NetAppend(ledger, inbound, cat, k);
    NetAppend(ledger + [inbound], outbound, cat, k);
  }

  /** Grouping is by name: two locations with distinct ids but the same
      name feed the same group, so their balances merge. */
  lemma SameNameMerges(ledger: seq<Movement>, product: Id, loc1: Id, loc2: Id, q1: int, q2: int, cat: Catalog)
    requires product in cat.productNames && loc1 in cat.locationNames && loc2 in cat.locationNames
    requires cat.locationNames[loc1] == cat.locationNames[loc2]
    ensures var k := (cat.productNames[product], cat.locationNames[loc1]);
            Net(ledger + [Movement(product, None, Some(loc1), q1), Movement(product, None, Some(loc2), q2)], cat, k) ==
            Net(ledger, cat, k) + q1 + q2
  {
    var k := (cat.productNames[product], cat.locationNames[loc1]);
    var m1 := Movement(product, None, Some(loc1), q1);
    var m2 := Movement(product, None, Some(loc2), q2);
    assert ledger + [m1, m2] == (ledger + [m1]) + [m2];
    NetAppend(ledger, m1, cat, k);
    NetAppend(ledger + [m1], m2, cat, k);
  }
}
