/** The grouping step of shopping-list generation: the joined meal-ingredient
    rows of a meal plan are folded into a map keyed by ingredient id. The
    first row of an ingredient fixes its name and unit, later rows add their
    quantity, and the entries come out in the order their keys were first
    inserted, as a JavaScript `Map` iterates. */
module ShoppingAggregation {
  import opened Common

  /** A joined row (ingredient id, ingredient name, quantity, unit), which is
      also the shape of one aggregated entry. */
  datatype Entry = Entry(ingredientId: Id, name: string, quantity: real, unit: Option<string>)

  /** The loop's state: the map's keys in insertion order, and the map. */
  datatype Acc = Acc(order: seq<Id>, byId: map<Id, Entry>)

  /** One iteration of the loop: add to an existing entry, or insert the row. */
  function Add(acc: Acc, row: Entry): Acc {
    var k := row.ingredientId;
    if k in acc.byId then Acc(acc.order, acc.byId[k := acc.byId[k].(quantity := acc.byId[k].quantity + row.quantity)])
    else Acc(acc.order + [k], acc.byId[k := row])
  }

  /** The state after the loop has seen `rows`: the keys are exactly the map's
      domain, each once, and each entry is filed under its own id. */
  function Fold(rows: seq<Entry>): (a: Acc)
    ensures forall k :: k in a.order <==> k in a.byId
    ensures forall i, j :: 0 <= i < j < |a.order| ==> a.order[i] != a.order[j]
    ensures forall k :: k in a.byId ==> a.byId[k].ingredientId == k
    decreases |rows|
  {
    if rows == [] then Acc([], map[]) else Add(Fold(rows[..|rows| - 1]), rows[|rows| - 1])
  }

  /** The map's values in key-insertion order. */
  function Lines(a: Acc): seq<Entry>
    requires forall k :: k in a.order ==> k in a.byId
  {
    seq(|a.order|, i requires 0 <= i < |a.order| => a.byId[a.order[i]])
  }

  /** The aggregated entries of a plan's rows. */
  function Aggregate(rows: seq<Entry>): seq<Entry> {
    Lines(Fold(rows))
  }

  // Reference definitions, independent of the map.

  function IdsOf(rows: seq<Entry>): set<Id> {
    set r | r in rows :: r.ingredientId
  }

  /** Position of the first row of ingredient `k`. */
  function FirstIndex(rows: seq<Entry>, k: Id): nat {
    FindIndex(rows, (r: Entry) => r.ingredientId == k)
  }

  /** The summed quantity of ingredient `k`. */
  function SumFor(rows: seq<Entry>, k: Id): real
    decreases |rows|
  {
    if rows == [] then 0.0
    else SumFor(rows[..|rows| - 1], k) + (if rows[|rows| - 1].ingredientId == k then rows[|rows| - 1].quantity else 0.0)
  }

  /** The summed quantity of all rows. */
  function Quantity(rows: seq<Entry>): real
    decreases |rows|
  {
    if rows == [] then 0.0 else Quantity(rows[..|rows| - 1]) + rows[|rows| - 1].quantity
  }

  /** An ingredient with no row sums to nothing. */
  lemma {:induction false} SumForAbsent(rows: seq<Entry>, k: Id)
    requires k !in IdsOf(rows)
    ensures SumFor(rows, k) == 0.0
    decreases |rows|
  {
    if rows != [] {
      assert rows[|rows| - 1] in rows;
      assert IdsOf(rows[..|rows| - 1]) <= IdsOf(rows) by {
        forall r | r in rows[..|rows| - 1] ensures r in rows { }
      }
      SumForAbsent(rows[..|rows| - 1], k);
    }
  }

  /** The first row of an ingredient in `pre + [x]` is its first row in `pre`
      when there is one, and `x` otherwise. */
  lemma FirstIndexAppend(pre: seq<Entry>, x: Entry, k: Id)
    ensures k in IdsOf(pre) ==> FirstIndex(pre + [x], k) == FirstIndex(pre, k) < |pre|
    ensures k !in IdsOf(pre) && x.ingredientId == k ==> FirstIndex(pre + [x], k) == |pre|
  {
    var s := pre + [x];
    var p := (r: Entry) => r.ingredientId == k;
    var i, j := FindIndex(s, p), FindIndex(pre, p);
    forall t | 0 <= t < |pre| ensures s[t] == pre[t] { }
    if k in IdsOf(pre) {
      var r :| r in pre && r.ingredientId == k;
      var t :| 0 <= t < |pre| && pre[t] == r;
      assert j <= t;
      assert s[j] == pre[j];
      assert i <= j;
      assert pre[i] == s[i];
    } else {
      forall t | 0 <= t < |pre| ensures !p(s[t]) {
        assert pre[t] in pre;
      }
      assert s[|pre|] == x;
    }
  }

  /** `FirstIndexAppend` for a sequence split before its last row. */
  lemma FirstIndexLast(rows: seq<Entry>, k: Id)
    requires rows != []
    ensures var pre := rows[..|rows| - 1];
      && (k in IdsOf(pre) ==> FirstIndex(rows, k) == FirstIndex(pre, k) < |pre|)
      && (k !in IdsOf(pre) && rows[|rows| - 1].ingredientId == k ==> FirstIndex(rows, k) == |pre|)
  {
    var pre, x := rows[..|rows| - 1], rows[|rows| - 1];
    assert rows == pre + [x];
    FirstIndexAppend(pre, x, k);
  }

  /** The map's keys are the ingredient ids occurring in the rows. */
  lemma {:induction false} FoldKeys(rows: seq<Entry>)
    ensures forall k :: k in Fold(rows).byId <==> k in IdsOf(rows)
    decreases |rows|
  {
    if rows != [] {
      var pre, x := rows[..|rows| - 1], rows[|rows| - 1];
      assert rows == pre + [x];
      FoldKeys(pre);
      assert IdsOf(rows) == IdsOf(pre) + {x.ingredientId};
    }
  }

  /** The entry of an ingredient holds the sum of its quantities. */
  lemma {:induction false} FoldEntrySum(rows: seq<Entry>, k: Id)
    requires k in Fold(rows).byId
    ensures Fold(rows).byId[k].quantity == SumFor(rows, k)
    decreases |rows|
  {
    var pre, x := rows[..|rows| - 1], rows[|rows| - 1];
    var b := Fold(pre);
    if k in b.byId {
      FoldEntrySum(pre, k);
    } else {
      assert x.ingredientId == k;
      assert k !in IdsOf(pre) by { FoldKeys(pre); }
      SumForAbsent(pre, k);
    }
  }

  /** The entry of an ingredient carries the name and unit of its first row. */
  lemma {:induction false} FoldEntryFirst(rows: seq<Entry>, k: Id)
    requires k in Fold(rows).byId
    ensures FirstIndex(rows, k) < |rows|
    ensures Fold(rows).byId[k].name == rows[FirstIndex(rows, k)].name
    ensures Fold(rows).byId[k].unit == rows[FirstIndex(rows, k)].unit
    decreases |rows|
  {
    var pre, x := rows[..|rows| - 1], rows[|rows| - 1];
    var b := Fold(pre);
    FoldKeys(pre);
    FirstIndexLast(rows, k);
    if k in b.byId {
      FoldEntryFirst(pre, k);
      assert Fold(rows).byId[k].name == b.byId[k].name && Fold(rows).byId[k].unit == b.byId[k].unit;
      assert rows[FirstIndex(rows, k)] == pre[FirstIndex(pre, k)];
    } else {
      assert Fold(rows).byId[k] == x && x.ingredientId == k;
      assert rows[FirstIndex(rows, k)] == x;
    }
  }

  /** The entry of an ingredient carries the name and unit of its first row
      and the sum of its quantities. */
  lemma FoldEntry(rows: seq<Entry>, k: Id)
    requires k in Fold(rows).byId
    ensures FirstIndex(rows, k) < |rows|
    ensures Fold(rows).byId[k] == Entry(k, rows[FirstIndex(rows, k)].name, SumFor(rows, k), rows[FirstIndex(rows, k)].unit)
  {
    FoldEntrySum(rows, k);
    FoldEntryFirst(rows, k);
  }

  /** The entries follow the order in which their ingredients first occur. */
  lemma {:induction false} FoldOrder(rows: seq<Entry>)
    ensures forall i, j :: 0 <= i < j < |Fold(rows).order| ==>
              FirstIndex(rows, Fold(rows).order[i]) < FirstIndex(rows, Fold(rows).order[j])
    decreases |rows|
  {
    if rows != [] {
      var pre, x := rows[..|rows| - 1], rows[|rows| - 1];
      assert rows == pre + [x];
      FoldOrder(pre);
      var b := Fold(pre);
      var a := Fold(rows);
      assert a == Add(b, x);
      forall i, j | 0 <= i < j < |a.order| ensures FirstIndex(rows, a.order[i]) < FirstIndex(rows, a.order[j]) {
        assert a.order[i] == b.order[i];
        assert a.order[i] in IdsOf(pre) by { FoldKeys(pre); }
        assert FirstIndex(rows, a.order[i]) == FirstIndex(pre, a.order[i]) < |pre| by {
          FirstIndexAppend(pre, x, a.order[i]);
        }
        if j < |b.order| {
          assert a.order[j] == b.order[j];
          assert FirstIndex(pre, b.order[i]) < FirstIndex(pre, b.order[j]);
          assert a.order[j] in IdsOf(pre) by { FoldKeys(pre); }
          assert FirstIndex(rows, a.order[j]) == FirstIndex(pre, a.order[j]) by {
            FirstIndexAppend(pre, x, a.order[j]);
          }
        } else {
          assert a.order[j] == x.ingredientId && x.ingredientId !in b.byId;
          assert x.ingredientId !in IdsOf(pre) by { FoldKeys(pre); }
          assert FirstIndex(rows, a.order[j]) == |pre| by { FirstIndexAppend(pre, x, x.ingredientId); }
        }
      }
    }
  }

  /** The loop adds at most one key per row. */
  lemma {:induction false} FoldSize(rows: seq<Entry>)
    ensures |Fold(rows).order| <= |rows|
    decreases |rows|
  {
    if rows != [] {
      FoldSize(rows[..|rows| - 1]);
    }
  }

  /** At most one entry per joined row. */
  lemma AggregateSize(rows: seq<Entry>)
    ensures |Aggregate(rows)| <= |rows|
  {
    FoldSize(rows);
  }

  /** Entry `i` of the aggregation is the map's value under the `i`-th key. */
  lemma AggregateAt(rows: seq<Entry>)
    ensures |Aggregate(rows)| == |Fold(rows).order|
    ensures forall i :: 0 <= i < |Aggregate(rows)| ==>
      Fold(rows).order[i] in Fold(rows).byId && Aggregate(rows)[i] == Fold(rows).byId[Fold(rows).order[i]]
      && Aggregate(rows)[i].ingredientId == Fold(rows).order[i]
  {
  }

  /** No ingredient has two entries. */
  lemma AggregateDistinct(rows: seq<Entry>)
    ensures var r := Aggregate(rows);
      forall i, j :: 0 <= i < j < |r| ==> r[i].ingredientId != r[j].ingredientId
  {
    AggregateAt(rows);
  }

  /** An ingredient has an entry exactly when some row names it. */
  lemma AggregateCovers(rows: seq<Entry>)
    ensures var r := Aggregate(rows);
      forall k :: k in IdsOf(rows) <==> exists i :: 0 <= i < |r| && r[i].ingredientId == k
  {
    AggregateAt(rows);
    FoldKeys(rows);
    var a := Fold(rows);
    var r := Aggregate(rows);
    forall k | k in IdsOf(rows) ensures exists i :: 0 <= i < |r| && r[i].ingredientId == k {
      var i :| 0 <= i < |a.order| && a.order[i] == k;
      assert r[i].ingredientId == k;
    }
  }

  /** Each entry has its ingredient's summed quantity and the name and unit
      of the ingredient's first row. */
  lemma AggregateEntries(rows: seq<Entry>)
    ensures var r := Aggregate(rows);
      forall i :: 0 <= i < |r| ==>
        && FirstIndex(rows, r[i].ingredientId) < |rows|
        && r[i].name == rows[FirstIndex(rows, r[i].ingredientId)].name
        && r[i].unit == rows[FirstIndex(rows, r[i].ingredientId)].unit
        && r[i].quantity == SumFor(rows, r[i].ingredientId)
  {
    AggregateAt(rows);
    var a := Fold(rows);
    var r := Aggregate(rows);
    forall i | 0 <= i < |r|
      ensures FirstIndex(rows, r[i].ingredientId) < |rows|
      ensures r[i] == Entry(r[i].ingredientId, rows[FirstIndex(rows, r[i].ingredientId)].name,
                            SumFor(rows, r[i].ingredientId), rows[FirstIndex(rows, r[i].ingredientId)].unit)
    {
      FoldEntry(rows, a.order[i]);
    }
  }

  /** The entries follow the order in which their ingredients first occur. */
  lemma AggregateOrder(rows: seq<Entry>)
    ensures var r := Aggregate(rows);
      forall i, j :: 0 <= i < j < |r| ==> FirstIndex(rows, r[i].ingredientId) < FirstIndex(rows, r[j].ingredientId)
  {
    AggregateAt(rows);
    FoldOrder(rows);
  }

  /** Raising one entry's quantity by `d` raises the total by `d`. */
  lemma {:induction false} QuantityBump(s: seq<Entry>, idx: nat, d: real)
    requires idx < |s|
    ensures Quantity(s[idx := s[idx].(quantity := s[idx].quantity + d)]) == Quantity(s) + d
    decreases |s|
  {
    var s' := s[idx := s[idx].(quantity := s[idx].quantity + d)];
    assert s'[..|s| - 1] == if idx == |s| - 1 then s[..|s| - 1] else s[..|s| - 1][idx := s[idx].(quantity := s[idx].quantity + d)];
    if idx < |s| - 1 {
      QuantityBump(s[..|s| - 1], idx, d);
    }
  }

  /** Appending an entry adds its quantity to the total. */
  lemma QuantityAppend(s: seq<Entry>, x: Entry)
    ensures Quantity(s + [x]) == Quantity(s) + x.quantity
  {
    assert (s + [x])[..|s|] == s;
  }

  /** Inserting a new key appends its row to the entries. */
  lemma LinesAddNew(b: Acc, x: Entry)
    requires forall k :: k in b.order <==> k in b.byId
    requires x.ingredientId !in b.byId
    ensures Lines(Add(b, x)) == Lines(b) + [x]
  {
    var a := Add(b, x);
    forall i | 0 <= i < |b.order| ensures Lines(a)[i] == Lines(b)[i] {
      assert b.order[i] != x.ingredientId;
    }
  }

  /** Adding to an existing key raises that one entry. */
  lemma LinesAddExisting(b: Acc, x: Entry, idx: nat)
    requires forall k :: k in b.order <==> k in b.byId
    requires forall i, j :: 0 <= i < j < |b.order| ==> b.order[i] != b.order[j]
    requires idx < |b.order| && b.order[idx] == x.ingredientId
    ensures var lb := Lines(b);
      Lines(Add(b, x)) == lb[idx := lb[idx].(quantity := lb[idx].quantity + x.quantity)]
  {
    var a := Add(b, x);
    var lb := Lines(b);
    forall i | 0 <= i < |b.order| && i != idx ensures Lines(a)[i] == lb[i] {
      assert b.order[i] != b.order[idx];
    }
  }

  /** One iteration adds the row's quantity to the entries' total. */
  lemma AddConservesQuantity(b: Acc, x: Entry)
    requires forall k :: k in b.order <==> k in b.byId
    requires forall i, j :: 0 <= i < j < |b.order| ==> b.order[i] != b.order[j]
    ensures Quantity(Lines(Add(b, x))) == Quantity(Lines(b)) + x.quantity
  {
    var k := x.ingredientId;
    if k in b.byId {
      var idx :| 0 <= idx < |b.order| && b.order[idx] == k;
      LinesAddExisting(b, x, idx);
      QuantityBump(Lines(b), idx, x.quantity);
    } else {
      LinesAddNew(b, x);
      QuantityAppend(Lines(b), x);
    }
  }

  /** No quantity is lost or invented: the entries add up to the rows. */
  lemma {:induction false} AggregateConservesQuantity(rows: seq<Entry>)
    ensures Quantity(Aggregate(rows)) == Quantity(rows)
    decreases |rows|
  {
    if rows != [] {
      var pre, x := rows[..|rows| - 1], rows[|rows| - 1];
      AggregateConservesQuantity(pre);
      AddConservesQuantity(Fold(pre), x);
    }
  }

  /** The `forEach` over the joined rows, updating the map in place. */
  method FoldRows(rows: seq<Entry>) returns (order: seq<Id>, byId: map<Id, Entry>)
    ensures Acc(order, byId) == Fold(rows)
  {
    order, byId := [], map[];
    for i := 0 to |rows|
      invariant Acc(order, byId) == Fold(rows[..i])
    {
      assert Fold(rows[..i + 1]) == Add(Fold(rows[..i]), rows[i]) by {
        assert rows[..i + 1][..i] == rows[..i];
      }
      var row := rows[i];
      var k := row.ingredientId;
      ghost var before := Acc(order, byId);
      if k in byId {
        byId := byId[k := byId[k].(quantity := byId[k].quantity + row.quantity)];
      } else {
        order := order + [k];
        byId := byId[k := row];
      }
      assert Acc(order, byId) == Add(before, row);
    }
    assert rows[..|rows|] == rows;
  }

  /** The map's values in insertion order, as `Array.from(map.values())`. */
  method MapValues(order: seq<Id>, byId: map<Id, Entry>) returns (lines: seq<Entry>)
    requires forall k :: k in order ==> k in byId
    ensures lines == Lines(Acc(order, byId))
  {
    lines := [];
    for j := 0 to |order|
      invariant |lines| == j
      invariant forall t :: 0 <= t < j ==> lines[t] == byId[order[t]]
    {
      lines := lines + [byId[order[j]]];
    }
  }

  /** The grouping step of `generateShoppingList`: fold the rows, then read the
      map's values. */
  method GroupIngredients(rows: seq<Entry>) returns (lines: seq<Entry>)
    ensures lines == Aggregate(rows)
  {
    var order, byId := FoldRows(rows);
    lines := MapValues(order, byId);
  }
}
