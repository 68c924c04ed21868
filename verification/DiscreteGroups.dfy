/** Grouping the firmware's (id, value) pairs into per-feature value lists, as the
    probe function does for the discrete data block. */
module DiscreteGroups {
  import opened MachineInts

  datatype Entry = Entry(id: u32, value: u32)

  /** The distinct ids of the entries in the order they are first seen. */
  function Ids(es: seq<Entry>): (ids: seq<u32>)
  {
    if es == [] then []
    else
      var before := Ids(es[..|es| - 1]);
      var id := es[|es| - 1].id;
      if id in before then before else before + [id]
  }

  /** Every value carrying the id, in order, converted to int. */
  function ValuesOf(es: seq<Entry>, id: u32): seq<i32>
  {
    if es == [] then []
    else
      var before := ValuesOf(es[..|es| - 1], id);
      var e := es[|es| - 1];
      if e.id == id then before + [ToI32(e.value)] else before
  }

  /** How many entries carry the id. */
  function Count(es: seq<Entry>, id: u32): nat
  {
    if es == [] then 0 else Count(es[..|es| - 1], id) + if es[|es| - 1].id == id then 1 else 0
  }

  /** The values of an id are those of the entries carrying it, in their order: entry i is
      the one counted by those before it. */
  lemma {:induction false} ValuesAreInOrder(es: seq<Entry>, id: u32, i: nat)
    requires i < |es| && es[i].id == id
    ensures |ValuesOf(es, id)| == Count(es, id) && Count(es[..i], id) < Count(es, id)
    ensures ValuesOf(es, id)[Count(es[..i], id)] == ToI32(es[i].value)
    decreases |es|
  {
    var head := es[..|es| - 1];
    if i == |head| {
      assert es[..i] == head;
      ValuesAreCounted(head, id);
    } else {
      assert head[..i] == es[..i] && head[i] == es[i];
      ValuesAreInOrder(head, id, i);
    }
  }

  lemma {:induction false} ValuesAreCounted(es: seq<Entry>, id: u32)
    ensures |ValuesOf(es, id)| == Count(es, id)
    decreases |es|
  {
    if es != [] { ValuesAreCounted(es[..|es| - 1], id); }
  }

  /** How many entries are consumed: the scan stops as soon as the feature table is
      full, even for entries of features already in it. */
  function Consumed(es: seq<Entry>, capacity: nat, from: nat): (n: nat)
    requires from <= |es|
    ensures from <= n <= |es|
    decreases |es| - from
  {
    if from == |es| || |Ids(es[..from])| >= capacity then from else Consumed(es, capacity, from + 1)
  }

  function Take(s: seq<i32>, n: nat): seq<i32> { if |s| <= n then s else s[..n] }

  lemma {:induction false} IdsAreDistinct(es: seq<Entry>)
    ensures forall i, j | 0 <= i < j < |Ids(es)| :: Ids(es)[i] != Ids(es)[j]
    ensures forall id: u32 :: id in Ids(es) <==> exists k :: 0 <= k < |es| && es[k].id == id
    ensures |Ids(es)| <= |es|
    decreases |es|
  {
    if es != [] {
      var head := es[..|es| - 1];
      IdsAreDistinct(head);
      forall id: u32
        ensures id in Ids(es) <==> exists k :: 0 <= k < |es| && es[k].id == id
      {
        assert forall k | 0 <= k < |head| :: es[k] == head[k];
        if id in Ids(head) {
          var k :| 0 <= k < |head| && head[k].id == id;
          assert es[k].id == id;
        }
      }
    }
  }

  /** Ids appear in the order of their first entries. */
  lemma {:induction false} IdsAreInFirstSeenOrder(es: seq<Entry>, k: nat)
    requires k <= |es|
    ensures |Ids(es[..k])| <= |Ids(es)| && Ids(es)[..|Ids(es[..k])|] == Ids(es[..k])
    decreases |es|
  {
    if k == |es| {
      assert es[..k] == es;
    } else {
      var head := es[..|es| - 1];
      assert head[..k] == es[..k];
      IdsAreInFirstSeenOrder(head, k);
    }
  }

  lemma {:induction false} UnseenIdsHaveNoValues(es: seq<Entry>, id: u32)
    requires id !in Ids(es)
    ensures ValuesOf(es, id) == []
    decreases |es|
  {
    if es != [] {
      UnseenIdsHaveNoValues(es[..|es| - 1], id);
    }
  }

  /** The consumed prefix never holds more features than fit, and it is everything
      unless the table is exactly full. */
  lemma {:induction false} ConsumedFillsTable(es: seq<Entry>, capacity: nat, from: nat)
    requires from <= |es| && |Ids(es[..from])| <= capacity
    ensures var n := Consumed(es, capacity, from);
            |Ids(es[..n])| <= capacity && (n == |es| || |Ids(es[..n])| == capacity)
    ensures var n := Consumed(es, capacity, from);
            forall m | from <= m < n :: |Ids(es[..m])| < capacity
    decreases |es| - from
  {
    if from < |es| && |Ids(es[..from])| < capacity {
      assert es[..from + 1][..from] == es[..from];
      ConsumedFillsTable(es, capacity, from + 1);
    }
  }

  /** A feature of the table; its values are the first `count` of its row. */
  datatype Slot = Slot(featureId: u32, count: nat)

  ghost predicate HoldsFeature(table: array<Slot>, values: array2<i32>, es: seq<Entry>, f: nat)
    requires table.Length == values.Length0 && f < |Ids(es)| && f < table.Length
    reads table, values
  {
    var wanted := Take(ValuesOf(es, Ids(es)[f]), values.Length1);
    && table[f] == Slot(Ids(es)[f], |wanted|)
    && forall k | 0 <= k < |wanted| :: values[f, k] == wanted[k]
  }

  /** What the table must hold after consuming es. */
  ghost predicate Holds(table: array<Slot>, values: array2<i32>, es: seq<Entry>, used: nat)
    requires table.Length == values.Length0
    reads table, values
  {
    && used == |Ids(es)| <= table.Length
    && forall f | 0 <= f < used :: HoldsFeature(table, values, es, f)
  }

  /** The grouping loop over a table of table.Length features of values.Length1 values
      each; `used` is discrete_feature_count. */
  method Group(es: seq<Entry>, table: array<Slot>, values: array2<i32>) returns (used: nat)
    requires table.Length == values.Length0
    modifies table, values
    ensures Holds(table, values, es[..Consumed(es, table.Length, 0)], used)
  {
    used := 0;
    var i := 0;
    while i < |es| && used < table.Length
      invariant 0 <= i <= |es|
      invariant Holds(table, values, es[..i], used)
      invariant Consumed(es, table.Length, 0) == Consumed(es, table.Length, i)
    {
      used := Place(es, i, table, values, used);
      i := i + 1;
    }
  }

  /** One pass of the loop body. */
  method Place(es: seq<Entry>, i: nat, table: array<Slot>, values: array2<i32>, used: nat) returns (used': nat)
    requires table.Length == values.Length0
    requires i < |es| && used < table.Length
    requires Holds(table, values, es[..i], used)
    modifies table, values
    ensures Holds(table, values, es[..i + 1], used')
  {
    var fid := es[i].id;
    ghost var done, now := es[..i], es[..i + 1];
    assert now[..i] == done && now[i] == es[i];
    var vi := 0;
    while vi < used
      invariant 0 <= vi <= used
      invariant forall f | 0 <= f < vi :: table[f].featureId != fid
    {
      assert HoldsFeature(table, values, done, vi);
      if table[vi].featureId == fid {
        break;
      }
      vi := vi + 1;
    }
    SlotOf(table, values, done, used, fid, vi);
    used' := used;
    if vi == used {
      table[vi] := Slot(fid, 0);
      used' := used + 1;
    }
    if table[vi].count < values.Length1 {
      values[vi, table[vi].count] := ToI32(es[i].value);
      table[vi] := table[vi].(count := table[vi].count + 1);
    }
    assert HoldsFeature(table, values, now, vi);
    forall f | 0 <= f < used' && f != vi
      ensures HoldsFeature(table, values, now, f)
    {
      assert old(HoldsFeature(table, values, done, f));
      IdsAreDistinct(done);
      assert Ids(now)[f] == Ids(done)[f] && Ids(now)[f] != fid;
    }
  }

  /** Where the inner search stops: at the feature's slot, or at the end for a new id,
      which has no values yet. */
  lemma SlotOf(table: array<Slot>, values: array2<i32>, done: seq<Entry>, used: nat, fid: u32, vi: nat)
    requires table.Length == values.Length0
    requires Holds(table, values, done, used) && vi <= used
    requires forall f | 0 <= f < vi :: table[f].featureId != fid
    requires vi < used ==> table[vi].featureId == fid
    ensures vi < used ==> Ids(done)[vi] == fid && HoldsFeature(table, values, done, vi)
    ensures vi == used ==> fid !in Ids(done) && ValuesOf(done, fid) == []
  {
    if vi < used {
      assert HoldsFeature(table, values, done, vi);
    } else {
      forall f | 0 <= f < used
        ensures Ids(done)[f] != fid
      {
        assert HoldsFeature(table, values, done, f);
      }
      UnseenIdsHaveNoValues(done, fid);
    }
  }
}
