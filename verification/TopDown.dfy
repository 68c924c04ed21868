/** The order in which a new table of trip temperatures replaces the old one, one point
    at a time, highest point first. */
module TopDown {
  import opened Descending

  predicate Sorted(t: seq<int>)
  {
    forall i | 0 < i < |t| :: t[i - 1] <= t[i]
  }

  /** The table after the points from k up have been replaced. */
  function FromTop(a: seq<int>, b: seq<int>, k: nat): (t: seq<int>)
    requires |a| == |b| && k <= |a|
    ensures |t| == |a| && forall i | 0 <= i < |a| :: t[i] == if i < k then a[i] else b[i]
  {
    a[..k] + b[k..]
  }

  /** The table after the points below k have been replaced, lowest first. */
  function FromBottom(a: seq<int>, b: seq<int>, k: nat): (t: seq<int>)
    requires |a| == |b| && k <= |a|
    ensures |t| == |a| && forall i | 0 <= i < |a| :: t[i] == if i < k then b[i] else a[i]
  {
    b[..k] + a[k..]
  }

  /** The temperature writes of `write_curve`, `cmd_apply` and `apply_curve_pwm`;
      `tables` collects the table after each one. */
  method WriteTopDown(table: array<int>, b: seq<int>) returns (ghost tables: seq<seq<int>>)
    requires table.Length == |b|
    modifies table
    ensures table[..] == b
    ensures |tables| == |b|
    ensures forall j | 0 <= j < |b| :: tables[j] == FromTop(old(table[..]), b, |b| - 1 - j)
  {
    tables := [];
    ghost var a := table[..];
    for i := |b| downto 0
      invariant table[..] == FromTop(a, b, i)
      invariant |tables| == |b| - i
      invariant forall j | 0 <= j < |tables| :: tables[j] == FromTop(a, b, |b| - 1 - j)
    {
      table[i] := b[i];
      tables := tables + [table[..]];
    }
  }

  /** No intermediate table is out of order exactly when every old temperature is at
      most the new temperature of the next point. */
  lemma TopDownNeverInvertsIff(a: seq<int>, b: seq<int>)
    requires |a| == |b| && Sorted(a) && Sorted(b)
    ensures (forall k | 0 <= k <= |a| :: Sorted(FromTop(a, b, k))) <==>
              forall k | 0 < k < |a| :: a[k - 1] <= b[k]
  {
    if forall k | 0 <= k <= |a| :: Sorted(FromTop(a, b, k)) {
      forall k | 0 < k < |a|
        ensures a[k - 1] <= b[k]
      {
        var t := FromTop(a, b, k);
        assert t[k - 1] <= t[k];
      }
    }
  }

  lemma BottomUpNeverInvertsIff(a: seq<int>, b: seq<int>)
    requires |a| == |b| && Sorted(a) && Sorted(b)
    ensures (forall k | 0 <= k <= |a| :: Sorted(FromBottom(a, b, k))) <==>
              forall k | 0 < k < |a| :: b[k - 1] <= a[k]
  {
    if forall k | 0 <= k <= |a| :: Sorted(FromBottom(a, b, k)) {
      forall k | 0 < k < |a|
        ensures b[k - 1] <= a[k]
      {
        var t := FromBottom(a, b, k);
        assert t[k - 1] <= t[k];
      }
    }
  }

  /** So raising every point is safe from the top, and lowering every point is safe
      from the bottom. */
  lemma RaiseFromTopLowerFromBottom(a: seq<int>, b: seq<int>)
    requires |a| == |b| && Sorted(a) && Sorted(b)
    ensures (forall i | 0 <= i < |a| :: a[i] <= b[i]) ==>
              forall k | 0 <= k <= |a| :: Sorted(FromTop(a, b, k))
    ensures (forall i | 0 <= i < |a| :: b[i] <= a[i]) ==>
              forall k | 0 <= k <= |a| :: Sorted(FromBottom(a, b, k))
  {
    TopDownNeverInvertsIff(a, b);
    BottomUpNeverInvertsIff(a, b);
  }

  const FACTORY_PERFORMANCE := [75, 78, 80, 85, 85, 85, 85, 85, 97, 100]
  const PRESET_GRADUAL := [50, 55, 60, 65, 70, 75, 80, 85, 88, 92]

  /** From the factory table to a preset the walk does invert: with only the top point
      replaced, 97 stands below 92. */
  lemma FactoryToPresetInverts()
    ensures Sorted(FACTORY_PERFORMANCE) && Sorted(PRESET_GRADUAL)
    ensures !Sorted(FromTop(FACTORY_PERFORMANCE, PRESET_GRADUAL, 9))
  {
    var t := FromTop(FACTORY_PERFORMANCE, PRESET_GRADUAL, 9);
    assert t[8] == 97 && t[9] == 92;
  }

  // ---- a firmware that rejects a write which would leave the table out of order ----

  function Offer(t: seq<int>, i: nat, v: int): (r: seq<int>)
    ensures |r| == |t|
  {
    if i < |t| && Sorted(t[i := v]) then t[i := v] else t
  }

  function Offerer(): (seq<int>, nat, int) -> seq<int>
  {
    (t: seq<int>, i: nat, v: int) => Offer(t, i, v)
  }

  /** The table after every point has been offered, highest first. */
  function Offered(a: seq<int>, b: seq<int>): seq<int> { Downward(Offerer(), a, b, 0) }

  /** The step at point k meets the old temperature below it. */
  predicate StepsUp(a: seq<int>, b: seq<int>, k: nat)
    requires |a| == |b| && k < |a|
  {
    k == 0 || a[k - 1] <= b[k]
  }

  lemma UnhinderedWalk(a: seq<int>, b: seq<int>)
    requires |a| == |b| && Sorted(a) && Sorted(b)
    requires forall j: nat | j < |a| :: StepsUp(a, b, j)
    ensures Offered(a, b) == b
  {
    ghost var inv := (t: seq<int>, k: nat) => k <= |a| && t == FromTop(a, b, k);
    NothingReplaced(a, b);
    forall t: seq<int>, i: nat | i < |b| && inv(t, i + 1)
      ensures inv(Offerer()(t, i, b[i]), i)
    {
      OfferIsTaken(a, b, i);
    }
    DownwardKeeps(Offerer(), a, b, 0, inv);
    assert FromTop(a, b, 0) == b;
  }

  lemma NothingReplaced(a: seq<int>, b: seq<int>)
    requires |a| == |b|
    ensures FromTop(a, b, |a|) == a
  {
  }

  lemma OfferIsTaken(a: seq<int>, b: seq<int>, k: nat)
    requires |a| == |b| && k < |a| && Sorted(a) && Sorted(b) && StepsUp(a, b, k)
    ensures Offer(FromTop(a, b, k + 1), k, b[k]) == FromTop(a, b, k)
  {
    var t := FromTop(a, b, k);
    assert FromTop(a, b, k + 1)[k := b[k]] == t;
    forall i | 0 < i < |t|
      ensures t[i - 1] <= t[i]
    {
    }
  }

  /** A rejected point keeps its old temperature, which is not the one asked for. */
  lemma HinderedWalk(a: seq<int>, b: seq<int>, j: nat)
    requires |a| == |b| && j < |a| && Sorted(a) && Sorted(b)
    requires !StepsUp(a, b, j) && forall m: nat | j < m < |a| :: StepsUp(a, b, m)
    ensures Offered(a, b) != b
  {
    ghost var inv := (t: seq<int>, k: nat) =>
      if k > j then k <= |a| && t == FromTop(a, b, k) else |t| == |a| && t[j] != b[j];
    NothingReplaced(a, b);
    forall t: seq<int>, i: nat | i < |b| && inv(t, i + 1)
      ensures inv(Offerer()(t, i, b[i]), i)
    {
      if i > j {
        OfferIsTaken(a, b, i);
      } else if i == j {
        OfferIsRejected(a, b, i);
      } else {
        OfferKeepsOthers(t, i, b[i], j);
      }
    }
    DownwardKeeps(Offerer(), a, b, 0, inv);
  }

  lemma OfferKeepsOthers(t: seq<int>, i: nat, v: int, j: nat)
    requires i < |t| && j < |t| && i != j
    ensures Offer(t, i, v)[j] == t[j]
  {
  }

  lemma OfferIsRejected(a: seq<int>, b: seq<int>, k: nat)
    requires |a| == |b| && k < |a| && Sorted(a) && !StepsUp(a, b, k)
    ensures Offer(FromTop(a, b, k + 1), k, b[k])[k] != b[k]
  {
    var t := FromTop(a, b, k + 1)[k := b[k]];
    assert t[k - 1] == a[k - 1] && t[k] == b[k];
    assert a[k - 1] <= a[k];
  }

  lemma {:induction false} LastHindrance(a: seq<int>, b: seq<int>, k: nat) returns (j: nat)
    requires |a| == |b| && k < |a| && !StepsUp(a, b, k)
    ensures k <= j < |a| && !StepsUp(a, b, j) && forall m: nat | j < m < |a| :: StepsUp(a, b, m)
    decreases |a| - k
  {
    if m: nat :| k < m < |a| && !StepsUp(a, b, m) {
      j := LastHindrance(a, b, m);
    } else {
      j := k;
    }
  }

  /** With such a firmware the walk ends at the new table under exactly the same
      condition. */
  lemma RejectingFirmwareTakesTableIff(a: seq<int>, b: seq<int>)
    requires |a| == |b| && Sorted(a) && Sorted(b)
    ensures Offered(a, b) == b <==> forall k | 0 < k < |a| :: a[k - 1] <= b[k]
  {
    if k: nat :| k < |a| && !StepsUp(a, b, k) {
      var j := LastHindrance(a, b, k);
      HinderedWalk(a, b, j);
    } else {
      UnhinderedWalk(a, b);
      forall k: nat | 0 < k < |a|
        ensures a[k - 1] <= b[k]
      {
        assert StepsUp(a, b, k);
      }
    }
  }
}
