/** The balance engine: two loops that fold the grouped query results into a
    dictionary of net balances, and the zero-filtering comprehension that
    turns the dictionary into report records. */
module Balance {
  import opened Ledger

  /** One report record: {product, warehouse, qty}. */
  datatype Row = Row(product: Name, warehouse: Name, qty: int)

  function RowKey(row: Row): Key
  {
    (row.product, row.warehouse)
  }

  predicate Distinct(keys: seq<Key>)
  {
    forall i, j :: 0 <= i < j < |keys| ==> keys[i] != keys[j]
  }

  lemma DistinctAppend(keys: seq<Key>, key: Key)
    requires Distinct(keys) && key !in keys
    ensures Distinct(keys + [key])
  {
  }

  /** `m.get(key, 0)`. */
  function GetOrZero(m: map<Key, int>, key: Key): (r: int)
    ensures key in m ==> r == m[key]
    ensures key !in m ==> r == 0
  {
    if key in m then m[key] else 0
  }

  /** A Python dictionary from keys to integers: its entries, and its keys
      in insertion order, which is the order its items are iterated in. */
  datatype Dict = Dict(entries: map<Key, int>, order: seq<Key>)
  {
    ghost predicate Valid()
    {
      Distinct(order) && forall k :: k in order <==> k in entries
    }

    /** `d.get(key, 0)`: a non-zero read means the key was inserted. */
    function Get(key: Key): (r: int)
      ensures key in entries ==> r == entries[key]
      ensures Valid() && r != 0 ==> key in order
    {
      GetOrZero(entries, key)
    }

    /** `d[key] = v`: a new key goes to the end of the iteration order, an
        existing key keeps its place. */
    function Put(key: Key, v: int): (d: Dict)
      requires Valid()
      ensures d.Valid()
      ensures d.entries == entries[key := v]
      ensures d.entries.Keys == entries.Keys + {key}
      ensures d.order == if key in entries then order else order + [key]
    {
      if key in entries then Dict(entries[key := v], order)
      else
        DistinctAppend(order, key);
        Dict(entries[key := v], order + [key])
    }
  }

  /** The signed contribution of one query's group sum for key k: added for
      the incoming query, subtracted for the outgoing one, 0 when the query
      has no such group. */
  function Delta(query: map<Key, int>, pass: Pass, k: Key): int
  {
    if pass == Incoming then GetOrZero(query, k) else -GetOrZero(query, k)
  }

  /** One loop over a query's rows (a map from group key to group sum), in no
      particular order: `balances[key] = balances.get(key, 0) + total` for
      the incoming query and `- total` for the outgoing one. Afterwards the
      dictionary holds the keys it held plus the query's groups, each entry
      moved by that group's sum. */
  method Accumulate(start: Dict, query: map<Key, int>, pass: Pass) returns (balances: Dict)
    requires start.Valid()
    ensures balances.Valid()
    ensures balances.entries.Keys == start.entries.Keys + query.Keys
    ensures forall k :: k in balances.entries ==> balances.entries[k] == start.Get(k) + Delta(query, pass, k)
  {
    balances := start;
    var rows := query.Keys;
    while rows != {}
      invariant balances.Valid()
      invariant rows <= query.Keys
      invariant forall k :: k in balances.entries <==> k in start.entries || (k in query && k !in rows)
      invariant forall k :: k in balances.entries ==>
        balances.entries[k] == start.Get(k) + (if k in query && k !in rows then Delta(query, pass, k) else 0)
      decreases rows
    {
      var key :| key in rows;
      if pass == Incoming {
        balances := balances.Put(key, balances.Get(key) + query[key]);
      } else {
        balances := balances.Put(key, balances.Get(key) - query[key]);
      }
      rows := rows - {key};
    }
  }

  /** The two loops over the query results. The dictionary starts empty; the
      incoming rows add their sums, the outgoing rows subtract theirs. Every
      key of either query ends up in the dictionary holding incoming sum
      minus outgoing sum, a missing group counting as 0, and the dictionary
      holds no other key. */
  method ConsolidateBalances(incoming: map<Key, int>, outgoing: map<Key, int>) returns (balances: Dict)
    ensures balances.Valid()
    ensures balances.entries.Keys == incoming.Keys + outgoing.Keys
    ensures forall k :: k in balances.entries ==>
      balances.entries[k] == GetOrZero(incoming, k) - GetOrZero(outgoing, k)
  {
    var empty := Dict(map[], []);
    var afterIncoming := Accumulate(empty, incoming, Incoming);
    balances := Accumulate(afterIncoming, outgoing, Outgoing);
  }

  /** The report comprehension: walk the dictionary in its iteration order
      and keep a record for every entry whose value is not 0. Every record
      produced is a non-zero entry of the dictionary. */
  function ReportRows(balances: map<Key, int>, order: seq<Key>): (r: seq<Row>)
    requires forall k :: k in order ==> k in balances
    ensures forall i :: 0 <= i < |r| ==>
      r[i].qty != 0 && RowKey(r[i]) in order && balances[RowKey(r[i])] == r[i].qty
  {
    if order == [] then []
    else
      var k := order[0];
      var rest := ReportRows(balances, order[1..]);
      assert forall i :: 0 <= i < |rest| ==> RowKey(rest[i]) in order;
      if balances[k] != 0 then [Row(k.0, k.1, balances[k])] + rest else rest
  }

  /** Every non-zero entry of the dictionary yields a record. */
  lemma {:induction false} ReportRowsComplete(balances: map<Key, int>, order: seq<Key>, k: Key)
    requires forall x :: x in order ==> x in balances
    requires k in order && balances[k] != 0
    ensures exists i :: 0 <= i < |ReportRows(balances, order)| && RowKey(ReportRows(balances, order)[i]) == k
  {
    var r := ReportRows(balances, order);
    var rest := ReportRows(balances, order[1..]);
    if order[0] == k {
      assert RowKey(r[0]) == k;
    } else {
      assert k in order[1..];
      ReportRowsComplete(balances, order[1..], k);
      var i :| 0 <= i < |rest| && RowKey(rest[i]) == k;
      if balances[order[0]] != 0 {
        assert r[i + 1] == rest[i];
      } else {
        assert r[i] == rest[i];
      }
    }
  }

  /** When the iteration order repeats no key, no key gets two records. */
  lemma {:induction false} ReportRowsDistinct(balances: map<Key, int>, order: seq<Key>)
    requires forall x :: x in order ==> x in balances
    requires Distinct(order)
    ensures forall i, j :: 0 <= i < j < |ReportRows(balances, order)| ==>
      RowKey(ReportRows(balances, order)[i]) != RowKey(ReportRows(balances, order)[j])
  {
    if order != [] {
      var tail := order[1..];
      assert Distinct(tail);
      assert order[0] !in tail by {
        forall j | 0 <= j < |tail| ensures tail[j] != order[0] { assert tail[j] == order[j + 1]; }
      }
      ReportRowsDistinct(balances, tail);
      var rest := ReportRows(balances, tail);
      var r := ReportRows(balances, order);
      if balances[order[0]] == 0 {
        assert r == rest;
      } else {
        var k := order[0];
        assert r == [Row(k.0, k.1, balances[k])] + rest;
        forall i, j | 0 <= i < j < |r| ensures RowKey(r[i]) != RowKey(r[j]) {
          assert r[j] == rest[j - 1];
          if i > 0 {
            assert r[i] == rest[i - 1];
          } else {
            assert RowKey(r[0]) == order[0];
            assert RowKey(rest[j - 1]) in tail;
          }
        }
      }
    }
  }

  /** Incoming group sum minus outgoing group sum, a missing group counting
      as 0, is the net balance; and a key with a non-zero net balance is a
      group of one of the two queries. */
  lemma GroupedSumsGiveNet(ledger: seq<Movement>, cat: Catalog, k: Key)
    ensures GetOrZero(GroupedSums(ledger, cat, Incoming), k) - GetOrZero(GroupedSums(ledger, cat, Outgoing), k)
         == Net(ledger, cat, k)
    ensures Net(ledger, cat, k) != 0 ==>
      k in GroupedSums(ledger, cat, Incoming) || k in GroupedSums(ledger, cat, Outgoing)
  {
    if k !in GroupedSums(ledger, cat, Incoming) { SumOfUnmentioned(ledger, cat, Incoming, k); }
    if k !in GroupedSums(ledger, cat, Outgoing) { SumOfUnmentioned(ledger, cat, Outgoing, k); }
  }

  /** The balance report: one record per (product name, location name) whose
      net balance is non-zero, each such key exactly once, carrying that net
      balance; keys netting to zero, and keys no movement reaches, are absent. */
  method CalculateInventoryBalance(ledger: seq<Movement>, cat: Catalog) returns (report: seq<Row>)
    ensures forall i :: 0 <= i < |report| ==>
      report[i].qty != 0 && report[i].qty == Net(ledger, cat, RowKey(report[i]))
    ensures forall k :: Net(ledger, cat, k) != 0 ==>
      exists i :: 0 <= i < |report| && RowKey(report[i]) == k
    ensures forall i, j :: 0 <= i < j < |report| ==> RowKey(report[i]) != RowKey(report[j])
  {
    var incoming := GroupedSums(ledger, cat, Incoming);
    var outgoing := GroupedSums(ledger, cat, Outgoing);
    var balances := ConsolidateBalances(incoming, outgoing);
    report := ReportRows(balances.entries, balances.order);
    forall i | 0 <= i < |report| ensures report[i].qty == Net(ledger, cat, RowKey(report[i])) {
      GroupedSumsGiveNet(ledger, cat, RowKey(report[i]));
    }
    forall k | Net(ledger, cat, k) != 0
      ensures exists i :: 0 <= i < |report| && RowKey(report[i]) == k
    {
      GroupedSumsGiveNet(ledger, cat, k);
      ReportRowsComplete(balances.entries, balances.order, k);
    }
    ReportRowsDistinct(balances.entries, balances.order);
  }
}
