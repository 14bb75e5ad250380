/**
 * What both weighted partitioners (better_test/utils.py and the older copy in
 * better_test/database.py) are specified by: Python's ordering of
 * `(weight, label)` tuples, the descending order in which items are consumed,
 * the cursor that picks the bucket for each item, and the dealing of the
 * sorted items into buckets along that cursor.
 */
module Partition {

  /** One `(weight, label)` tuple; weights are historical durations, only ever compared. */
  datatype WeightedLabel = WeightedLabel(weight: int, value: string)

  // ---------------------------------------------------------------------------
  // Python's ordering of labels and of (weight, label) tuples
  // ---------------------------------------------------------------------------

  /** `a <= b` on Python strings: lexicographic by code point, a prefix first. */
  predicate LabelLe(a: string, b: string)
    decreases |a|
  {
    a == [] || (b != [] && (a[0] < b[0] || (a[0] == b[0] && LabelLe(a[1..], b[1..]))))
  }

  lemma {:induction false} LabelLeReflexive(a: string)
    ensures LabelLe(a, a)
    decreases |a|
  {
    if a != [] {
      LabelLeReflexive(a[1..]);
    }
  }

  lemma {:induction false} LabelLeTotal(a: string, b: string)
    ensures LabelLe(a, b) || LabelLe(b, a)
    decreases |a|
  {
    if a != [] && b != [] && a[0] == b[0] {
      LabelLeTotal(a[1..], b[1..]);
    }
  }

  lemma {:induction false} LabelLeAntisymmetric(a: string, b: string)
    requires LabelLe(a, b) && LabelLe(b, a)
    ensures a == b
    decreases |a|
  {
    if a != [] && b != [] {
      LabelLeAntisymmetric(a[1..], b[1..]);
      assert a == [a[0]] + a[1..] && b == [b[0]] + b[1..];
    }
  }

  lemma {:induction false} LabelLeTransitive(a: string, b: string, c: string)
    requires LabelLe(a, b) && LabelLe(b, c)
    ensures LabelLe(a, c)
    decreases |a|
  {
    if a != [] && b != [] && c != [] && a[0] == b[0] == c[0] {
      LabelLeTransitive(a[1..], b[1..], c[1..]);
    }
  }

  /** `x <= y` on Python tuples `(weight, label)`. */
  predicate TupleLe(x: WeightedLabel, y: WeightedLabel)
  {
    x.weight < y.weight || (x.weight == y.weight && LabelLe(x.value, y.value))
  }

  lemma TupleLeReflexive(x: WeightedLabel)
    ensures TupleLe(x, x)
  {
    LabelLeReflexive(x.value);
  }

  lemma TupleLeTotal(x: WeightedLabel, y: WeightedLabel)
    ensures TupleLe(x, y) || TupleLe(y, x)
  {
    LabelLeTotal(x.value, y.value);
  }

  lemma TupleLeAntisymmetric(x: WeightedLabel, y: WeightedLabel)
    requires TupleLe(x, y) && TupleLe(y, x)
    ensures x == y
  {
    LabelLeAntisymmetric(x.value, y.value);
  }

  lemma TupleLeTransitive(x: WeightedLabel, y: WeightedLabel, z: WeightedLabel)
    requires TupleLe(x, y) && TupleLe(y, z)
    ensures TupleLe(x, z)
  {
    if x.weight == y.weight == z.weight {
      LabelLeTransitive(x.value, y.value, z.value);
    }
  }

  /** Non-increasing in tuple order: what `reversed(sorted(data))` produces. */
  predicate Descending(s: seq<WeightedLabel>)
  {
    forall i, j :: 0 <= i < j < |s| ==> TupleLe(s[j], s[i])
  }

  /** Every element of `s` is at most `top`. */
  predicate AllAtMost(s: seq<WeightedLabel>, top: WeightedLabel)
  {
    forall i :: 0 <= i < |s| ==> TupleLe(s[i], top)
  }

  lemma AllAtMostOfPermutation(r: seq<WeightedLabel>, s: seq<WeightedLabel>, x: WeightedLabel, top: WeightedLabel)
    requires AllAtMost(s, top) && TupleLe(x, top)
    requires multiset(r) == multiset(s) + multiset{x}
    ensures AllAtMost(r, top)
  {
    forall i | 0 <= i < |r|
      ensures TupleLe(r[i], top)
    {
      assert r[i] in multiset(r);
      if r[i] != x {
        assert r[i] in multiset(s);
      }
    }
  }

  // ---------------------------------------------------------------------------
  // The descending sort
  // ---------------------------------------------------------------------------

  /** Inserts `x` into a descending sequence, keeping it descending. */
  function Insert(x: WeightedLabel, s: seq<WeightedLabel>): (r: seq<WeightedLabel>)
    requires Descending(s)
    ensures multiset(r) == multiset(s) + multiset{x}
    ensures Descending(r)
    decreases |s|
  {
    if s == [] then [x]
    else if TupleLe(s[0], x) then
      assert AllAtMost(s, x) by {
        forall i | 0 <= i < |s| ensures TupleLe(s[i], x) {
          if i > 0 { TupleLeTransitive(s[i], s[0], x); }
        }
      }
      [x] + s
    else
      TupleLeTotal(s[0], x);
      var rest := Insert(x, s[1..]);
      assert s == [s[0]] + s[1..];
      AllAtMostOfPermutation(rest, s[1..], x, s[0]);
      [s[0]] + rest
  }

  /**
   * `reversed(sorted(data))`: the items in descending `(weight, label)` order.
   * Written as an insertion sort; DescendingIsUnique shows that every
   * descending rearrangement of the same items is this very sequence, so the
   * choice of sorting algorithm does not matter.
   */
  function SortDescending(data: seq<WeightedLabel>): (r: seq<WeightedLabel>)
    ensures multiset(r) == multiset(data) && |r| == |data|
    ensures Descending(r)
    decreases |data|
  {
    if data == [] then []
    else
      assert data == [data[0]] + data[1..];
      Insert(data[0], SortDescending(data[1..]))
  }

  /** The first item of a descending sequence is at least every item of it. */
  lemma HeadIsGreatest(a: seq<WeightedLabel>, x: WeightedLabel)
    requires Descending(a) && x in multiset(a)
    ensures TupleLe(x, a[0])
  {
    var i :| 0 <= i < |a| && a[i] == x;
    if i == 0 {
      TupleLeReflexive(x);
    }
  }

  /** Two descending sequences holding the same items are equal. */
  lemma {:induction false} DescendingIsUnique(a: seq<WeightedLabel>, b: seq<WeightedLabel>)
    requires Descending(a) && Descending(b)
    requires multiset(a) == multiset(b)
    ensures a == b
    decreases |a|
  {
    assert |a| == |multiset(a)| == |multiset(b)| == |b|;
    if a != [] {
      assert a[0] in multiset(a) && b[0] in multiset(b);
      HeadIsGreatest(a, b[0]);
      HeadIsGreatest(b, a[0]);
      TupleLeAntisymmetric(a[0], b[0]);
      TailOfSameHead(a, b);
      DescendingTail(a);
      DescendingTail(b);
      DescendingIsUnique(a[1..], b[1..]);
      assert a == [a[0]] + a[1..] && b == [b[0]] + b[1..];
    }
  }

  lemma DescendingTail(a: seq<WeightedLabel>)
    requires Descending(a) && a != []
    ensures Descending(a[1..])
  {
  }

  /** Dropping the same head from two sequences with the same items leaves the same items. */
  lemma TailOfSameHead(a: seq<WeightedLabel>, b: seq<WeightedLabel>)
    requires a != [] && b != [] && a[0] == b[0] && multiset(a) == multiset(b)
    ensures multiset(a[1..]) == multiset(b[1..])
  {
    assert a == [a[0]] + a[1..] && b == [b[0]] + b[1..];
    assert multiset(a) == multiset{a[0]} + multiset(a[1..]);
    assert multiset(b) == multiset{b[0]} + multiset(b[1..]);
    assert multiset(a[1..]) == multiset(a) - multiset{a[0]} == multiset(b) - multiset{b[0]} == multiset(b[1..]);
  }

  /** The labels of a sequence of tuples, in order. */
  function Labels(s: seq<WeightedLabel>): seq<string>
  {
    seq(|s|, i requires 0 <= i < |s| => s[i].value)
  }

  lemma LabelsCons(x: WeightedLabel, s: seq<WeightedLabel>)
    ensures Labels([x] + s) == [x.value] + Labels(s)
  {
  }

  lemma {:induction false} InsertKeepsLabels(x: WeightedLabel, s: seq<WeightedLabel>)
    requires Descending(s)
    ensures multiset(Labels(Insert(x, s))) == multiset(Labels(s)) + multiset{x.value}
    decreases |s|
  {
    if s == [] {
      LabelsCons(x, s);
    } else if TupleLe(s[0], x) {
      LabelsCons(x, s);
    } else {
      var rest := Insert(x, s[1..]);
      InsertKeepsLabels(x, s[1..]);
      assert Insert(x, s) == [s[0]] + rest;
      LabelsCons(s[0], rest);
      assert s == [s[0]] + s[1..];
      LabelsCons(s[0], s[1..]);
    }
  }

  /** Sorting rearranges the labels and nothing else. */
  lemma {:induction false} SortKeepsLabels(data: seq<WeightedLabel>)
    ensures multiset(Labels(SortDescending(data))) == multiset(Labels(data))
    decreases |data|
  {
    if data != [] {
      var tail := SortDescending(data[1..]);
      SortKeepsLabels(data[1..]);
      InsertKeepsLabels(data[0], tail);
      assert SortDescending(data) == Insert(data[0], tail);
      assert data == [data[0]] + data[1..];
      LabelsCons(data[0], data[1..]);
    }
  }

  // ---------------------------------------------------------------------------
  // Bucket cursors
  // ---------------------------------------------------------------------------

  /** `itertools.cycle(range(n))` or the there-and-back `cycle(chain(range(n), reversed(range(n))))`. */
  datatype Cursor = RoundRobin | ThereAndBack

  /** Length of one turn of the cursor. */
  function Period(c: Cursor, n: nat): nat
  {
    match c
    case RoundRobin => n
    case ThereAndBack => 2 * n
  }

  /** The bucket indices one turn of the cursor visits, in order. */
  function CycleOrder(c: Cursor, n: nat): (order: seq<nat>)
    ensures |order| == Period(c, n)
    ensures forall i :: 0 <= i < |order| ==> order[i] < n
  {
    var up := seq(n, i requires 0 <= i < n => i);
    match c
    case RoundRobin => up
    case ThereAndBack => up + seq(n, i requires 0 <= i < n => n - 1 - i)
  }

  /**
   * Closed form of the bucket the k-th consumed item goes to: `k mod n` for
   * round-robin; for there-and-back, with `r = k mod 2n`, bucket `r` when
   * `r < n` and `2n - 1 - r` otherwise.
   */
  function Slot(c: Cursor, n: nat, k: nat): (b: nat)
    requires n > 0
    ensures b < n
  {
    match c
    case RoundRobin => k % n
    case ThereAndBack => var r := k % (2 * n); if r < n then r else 2 * n - 1 - r
  }

  /** The iterator's k-th value is the closed-form slot. */
  lemma CycleOrderIsSlot(c: Cursor, n: nat, k: nat)
    requires n > 0
    ensures CycleOrder(c, n)[k % Period(c, n)] == Slot(c, n, k)
  {
  }

  lemma DivModUnique(x: int, p: int, q: int, r: int)
    requires p > 0 && 0 <= r < p && x == q * p + r
    ensures x / p == q && x % p == r
  {
    var q', r' := x / p, x % p;
    assert x == q' * p + r';
    if q' > q {
      MulAtLeast(q' - q, p);
    } else if q' < q {
      MulAtLeast(q - q', p);
    }
  }

  lemma MulAtLeast(a: int, p: int)
    requires a >= 1 && p > 0
    ensures a * p - p >= 0
  {
  }

  /** One step of a counter modulo p. */
  lemma DivModStep(m: nat, p: nat)
    requires p > 0
    ensures (m + 1) % p == if m % p + 1 == p then 0 else m % p + 1
    ensures (m + 1) / p == if m % p + 1 == p then m / p + 1 else m / p
  {
    var q, r := m / p, m % p;
    if r + 1 == p {
      DivModUnique(m + 1, p, q + 1, 0);
    } else {
      DivModUnique(m + 1, p, q, r + 1);
    }
  }

  // ---------------------------------------------------------------------------
  // Dealing items into buckets
  // ---------------------------------------------------------------------------

  /**
   * The buckets after the items of `xs` have been appended, one by one, to the
   * bucket the cursor names: `n` lists, empty ones included.
   */
  function Deal<T>(c: Cursor, n: nat, xs: seq<T>): (buckets: seq<seq<T>>)
    requires n > 0 || xs == []
    ensures |buckets| == n
    decreases |xs|
  {
    if xs == [] then seq(n, _ => [])
    else
      var m := |xs| - 1;
      var prev := Deal(c, n, xs[..m]);
      var b := Slot(c, n, m);
      prev[b := prev[b] + [xs[m]]]
  }

  /** Dealing one more item appends it to the bucket the cursor is on. */
  lemma DealStep<T>(c: Cursor, n: nat, xs: seq<T>, k: nat)
    requires n > 0 && k < |xs|
    ensures var prev := Deal(c, n, xs[..k]);
      Deal(c, n, xs[..k + 1]) == prev[Slot(c, n, k) := prev[Slot(c, n, k)] + [xs[k]]]
  {
    assert xs[..k + 1][..k] == xs[..k];
  }

  /** How many of the first m items the cursor sends to bucket b. */
  function Count(c: Cursor, n: nat, m: nat, b: nat): nat
    requires n > 0
  {
    if m == 0 then 0 else Count(c, n, m - 1, b) + (if Slot(c, n, m - 1) == b then 1 else 0)
  }

  /** Closed form of Count. */
  function ClosedCount(c: Cursor, n: nat, m: nat, b: nat): int
    requires n > 0
  {
    match c
    case RoundRobin => m / n + (if b < m % n then 1 else 0)
    case ThereAndBack =>
      var r := m % (2 * n);
      2 * (m / (2 * n)) + (if b < r then 1 else 0) + (if b >= 2 * n - r then 1 else 0)
  }

  lemma {:induction false} CountIsClosed(c: Cursor, n: nat, m: nat, b: nat)
    requires n > 0 && b < n
    ensures Count(c, n, m, b) == ClosedCount(c, n, m, b)
    decreases m
  {
    if m > 0 {
      CountIsClosed(c, n, m - 1, b);
      DivModStep(m - 1, Period(c, n));
    }
  }

  /** On the there-and-back cursor the k-th item is the `2q`-th or `2q+1`-th in its bucket, `q = k div 2n`. */
  lemma ThereAndBackCount(n: nat, k: nat)
    requires n > 0
    ensures ClosedCount(ThereAndBack, n, k, Slot(ThereAndBack, n, k)) == 2 * (k / (2 * n)) + (if k % (2 * n) < n then 0 else 1)
  {
  }

  /** Bucket b holds exactly Count(|xs|, b) items. */
  lemma {:induction false} DealSizes<T>(c: Cursor, n: nat, xs: seq<T>, b: nat)
    requires n > 0 && b < n
    ensures |Deal(c, n, xs)[b]| == Count(c, n, |xs|, b)
    decreases |xs|
  {
    if xs != [] {
      DealSizes(c, n, xs[..|xs| - 1], b);
    }
  }

  /**
   * The k-th item lands in bucket Slot(k), right after the items before it
   * that went to the same bucket.
   */
  lemma {:induction false} DealPlacement<T>(c: Cursor, n: nat, xs: seq<T>, k: nat)
    requires n > 0 && k < |xs|
    ensures Count(c, n, k, Slot(c, n, k)) < |Deal(c, n, xs)[Slot(c, n, k)]|
    ensures Deal(c, n, xs)[Slot(c, n, k)][Count(c, n, k, Slot(c, n, k))] == xs[k]
    decreases |xs|
  {
    var m := |xs| - 1;
    var b := Slot(c, n, k);
    DealSizes(c, n, xs[..m], b);
    if k < m {
      DealPlacement(c, n, xs[..m], k);
    }
  }

  /** Concatenation of chunks, in order. */
  function Flatten<T>(chunks: seq<seq<T>>): seq<T>
  {
    if chunks == [] then [] else chunks[0] + Flatten(chunks[1..])
  }

  lemma {:induction false} FlattenAppendAt<T>(chunks: seq<seq<T>>, b: nat, x: T)
    requires b < |chunks|
    ensures multiset(Flatten(chunks[b := chunks[b] + [x]])) == multiset(Flatten(chunks)) + multiset{x}
    decreases |chunks|
  {
    var updated := chunks[b := chunks[b] + [x]];
    if b > 0 {
      assert updated[1..] == chunks[1..][b - 1 := chunks[1..][b - 1] + [x]];
      FlattenAppendAt(chunks[1..], b - 1, x);
    } else {
      assert updated[1..] == chunks[1..];
    }
  }

  lemma {:induction false} FlattenConcat<T>(a: seq<seq<T>>, b: seq<seq<T>>)
    ensures Flatten(a + b) == Flatten(a) + Flatten(b)
    decreases |a|
  {
    if a != [] {
      FlattenConcat(a[1..], b);
      calc {
        Flatten(a + b);
        (a + b)[0] + Flatten((a + b)[1..]);
        { assert (a + b)[0] == a[0] && (a + b)[1..] == a[1..] + b; }
        a[0] + Flatten(a[1..] + b);
        a[0] + (Flatten(a[1..]) + Flatten(b));
        (a[0] + Flatten(a[1..])) + Flatten(b);
        Flatten(a) + Flatten(b);
      }
    } else {
      assert a + b == b;
    }
  }

  /** Dealing neither loses nor invents items. */
  lemma {:induction false} DealIsPermutation<T>(c: Cursor, n: nat, xs: seq<T>)
    requires n > 0 || xs == []
    ensures multiset(Flatten(Deal(c, n, xs))) == multiset(xs)
    decreases |xs|
  {
    if xs == [] {
      var empty := Deal(c, n, xs);
      EmptyBucketsFlatten(empty);
    } else {
      var m := |xs| - 1;
      DealIsPermutation(c, n, xs[..m]);
      FlattenAppendAt(Deal(c, n, xs[..m]), Slot(c, n, m), xs[m]);
      assert xs == xs[..m] + [xs[m]];
    }
  }

  lemma {:induction false} EmptyBucketsFlatten<T>(chunks: seq<seq<T>>)
    requires forall i :: 0 <= i < |chunks| ==> chunks[i] == []
    ensures Flatten(chunks) == []
    decreases |chunks|
  {
    if chunks != [] {
      EmptyBucketsFlatten(chunks[1..]);
    }
  }

  /** Every item of every bucket is one of the dealt items. */
  lemma {:induction false} DealMembers<T>(c: Cursor, n: nat, xs: seq<T>, b: nat, i: nat)
    requires n > 0 && b < n && i < |Deal(c, n, xs)[b]|
    ensures Deal(c, n, xs)[b][i] in xs
    decreases |xs|
  {
    var m := |xs| - 1;
    var prev := Deal(c, n, xs[..m]);
    if i < |prev[b]| {
      DealMembers(c, n, xs[..m], b, i);
    }
  }

  /** Dealing a descending sequence leaves every bucket descending. */
  lemma {:induction false} DealKeepsDescending(c: Cursor, n: nat, xs: seq<WeightedLabel>, b: nat)
    requires n > 0 && b < n && Descending(xs)
    ensures Descending(Deal(c, n, xs)[b])
    decreases |xs|
  {
    if xs != [] {
      var m := |xs| - 1;
      assert Descending(xs[..m]);
      DealKeepsDescending(c, n, xs[..m], b);
      var prev := Deal(c, n, xs[..m]);
      if b == Slot(c, n, m) {
        forall i | 0 <= i < |prev[b]|
          ensures TupleLe(xs[m], prev[b][i])
        {
          DealMembers(c, n, xs[..m], b, i);
        }
      }
    }
  }

  /** Dealing labels is dealing the tuples and keeping their labels. */
  lemma {:induction false} DealLabels(c: Cursor, n: nat, xs: seq<WeightedLabel>, b: nat)
    requires n > 0 && b < n
    ensures Deal(c, n, Labels(xs))[b] == Labels(Deal(c, n, xs)[b])
    decreases |xs|
  {
    if xs != [] {
      var m := |xs| - 1;
      assert Labels(xs)[..m] == Labels(xs[..m]);
      DealLabels(c, n, xs[..m], b);
    }
  }

  /** Bucket sizes differ by at most one. */
  lemma DealBalanced<T>(c: Cursor, n: nat, xs: seq<T>, b1: nat, b2: nat)
    requires n > 0 && b1 < n && b2 < n
    ensures |Deal(c, n, xs)[b1]| <= |Deal(c, n, xs)[b2]| + 1
  {
    DealSizes(c, n, xs, b1);
    DealSizes(c, n, xs, b2);
    CountIsClosed(c, n, |xs|, b1);
    CountIsClosed(c, n, |xs|, b2);
  }

  /** Round-robin fills lower buckets first: sizes never grow with the index. */
  lemma RoundRobinSizesNonIncreasing<T>(n: nat, xs: seq<T>, b1: nat, b2: nat)
    requires n > 0 && b1 <= b2 < n
    ensures |Deal(RoundRobin, n, xs)[b2]| <= |Deal(RoundRobin, n, xs)[b1]|
  {
    DealSizes(RoundRobin, n, xs, b1);
    DealSizes(RoundRobin, n, xs, b2);
    CountIsClosed(RoundRobin, n, |xs|, b1);
    CountIsClosed(RoundRobin, n, |xs|, b2);
  }

  /** With fewer items than one turn of the cursor, no turn is complete. */
  lemma CountWithinFirstTurn(c: Cursor, n: nat, m: nat, b: nat)
    requires n > 0 && b < n && m < Period(c, n)
    ensures ClosedCount(c, n, m, b) == (if b < m then 1 else 0) + (if c.ThereAndBack? && b >= 2 * n - m then 1 else 0)
  {
    DivModUnique(m, Period(c, n), 0, m);
  }

  /** After at least one full turn, every bucket has received an item. */
  lemma CountAfterFirstTurn(c: Cursor, n: nat, m: nat, b: nat)
    requires n > 0 && b < n && m >= Period(c, n)
    ensures ClosedCount(c, n, m, b) >= 1
  {
    var p := Period(c, n);
    DivModUnique(m, p, m / p, m % p);
  }

  /** A bucket ends up empty exactly when there were fewer items than its index. */
  lemma DealOccupied<T>(c: Cursor, n: nat, xs: seq<T>, b: nat)
    requires n > 0 && b < n
    ensures Deal(c, n, xs)[b] != [] <==> b < |xs|
  {
    DealSizes(c, n, xs, b);
    CountIsClosed(c, n, |xs|, b);
    if |xs| < Period(c, n) {
      CountWithinFirstTurn(c, n, |xs|, b);
    } else {
      CountAfterFirstTurn(c, n, |xs|, b);
    }
  }

  // ---------------------------------------------------------------------------
  // Dropping empty chunks: `list(filter(bool, chunks))`
  // ---------------------------------------------------------------------------

  /** `list(filter(bool, chunks))`. */
  function NonEmpty<T>(chunks: seq<seq<T>>): (kept: seq<seq<T>>)
    ensures forall i :: 0 <= i < |kept| ==> kept[i] != []
    ensures Flatten(kept) == Flatten(chunks)
    ensures |kept| <= |chunks|
  {
    if chunks == [] then []
    else if chunks[0] == [] then NonEmpty(chunks[1..])
    else [chunks[0]] + NonEmpty(chunks[1..])
  }

  /** The indices, from `from` on, of the non-empty chunks, in increasing order. */
  function NonEmptyIndices<T>(chunks: seq<seq<T>>, from: nat): (ix: seq<nat>)
    requires from <= |chunks|
    ensures forall i :: 0 <= i < |ix| ==> from <= ix[i] < |chunks| && chunks[ix[i]] != []
    ensures forall i, j :: 0 <= i < j < |ix| ==> ix[i] < ix[j]
    ensures forall j :: from <= j < |chunks| && chunks[j] != [] ==> j in ix
    decreases |chunks| - from
  {
    if from == |chunks| then []
    else if chunks[from] == [] then NonEmptyIndices(chunks, from + 1)
    else [from] + NonEmptyIndices(chunks, from + 1)
  }

  /**
   * Filtering keeps every non-empty chunk unchanged and in its original
   * order: the i-th kept chunk is the i-th non-empty chunk of the input.
   */
  lemma {:induction false} NonEmptyKeepsChunks<T>(chunks: seq<seq<T>>, from: nat)
    requires from <= |chunks|
    ensures |NonEmpty(chunks[from..])| == |NonEmptyIndices(chunks, from)|
    ensures forall i :: 0 <= i < |NonEmptyIndices(chunks, from)| ==> NonEmpty(chunks[from..])[i] == chunks[NonEmptyIndices(chunks, from)[i]]
    decreases |chunks| - from
  {
    if from < |chunks| {
      var tail := chunks[from..];
      assert tail[0] == chunks[from] && tail[1..] == chunks[from + 1..];
      NonEmptyKeepsChunks(chunks, from + 1);
      var kept, ix := NonEmpty(chunks[from + 1..]), NonEmptyIndices(chunks, from + 1);
      if chunks[from] == [] {
        assert NonEmpty(tail) == kept && NonEmptyIndices(chunks, from) == ix;
      } else {
        assert NonEmpty(tail) == [chunks[from]] + kept;
        assert NonEmptyIndices(chunks, from) == [from] + ix;
        forall i | 1 <= i < |ix| + 1
          ensures NonEmpty(tail)[i] == chunks[NonEmptyIndices(chunks, from)[i]]
        {
          assert NonEmpty(tail)[i] == kept[i - 1];
        }
      }
    }
  }

  /** A chunk is kept exactly when it is a non-empty chunk of the input. */
  lemma NonEmptyMembers<T>(chunks: seq<seq<T>>)
    ensures forall i :: 0 <= i < |NonEmpty(chunks)| ==> NonEmpty(chunks)[i] in chunks
    ensures forall j :: 0 <= j < |chunks| && chunks[j] != [] ==> chunks[j] in NonEmpty(chunks)
  {
    var kept, ix := NonEmpty(chunks), NonEmptyIndices(chunks, 0);
    NonEmptyKeepsChunks(chunks, 0);
    assert chunks[0..] == chunks;
    forall j | 0 <= j < |chunks| && chunks[j] != []
      ensures chunks[j] in kept
    {
      var i :| 0 <= i < |ix| && ix[i] == j;
      assert kept[i] == chunks[j];
    }
  }

  /** One singleton chunk per item flattens back to the items. */
  lemma {:induction false} FlattenSingletons<T>(labels: seq<T>)
    ensures Flatten(seq(|labels|, i requires 0 <= i < |labels| => [labels[i]])) == labels
    decreases |labels|
  {
    if labels != [] {
      var chunks := seq(|labels|, i requires 0 <= i < |labels| => [labels[i]]);
      FlattenSingletons(labels[1..]);
      assert chunks[1..] == seq(|labels[1..]|, i requires 0 <= i < |labels[1..]| => [labels[1..][i]]);
      assert labels == [labels[0]] + labels[1..];
    }
  }

  /** When the occupied chunks form a prefix, filtering keeps exactly that prefix. */
  lemma {:induction false} NonEmptyOfPrefix<T>(chunks: seq<seq<T>>, k: nat)
    requires k <= |chunks|
    requires forall i :: 0 <= i < |chunks| ==> (chunks[i] != [] <==> i < k)
    ensures NonEmpty(chunks) == chunks[..k]
    decreases |chunks|
  {
    if chunks != [] {
      if k == 0 {
        NonEmptyOfPrefix(chunks[1..], 0);
      } else {
        NonEmptyOfPrefix(chunks[1..], k - 1);
      }
    }
  }

  // ---------------------------------------------------------------------------
  // The partitioners' output
  // ---------------------------------------------------------------------------

  /** Exact position of the k-th consumed item: bucket `Slot(k)`, index `ClosedCount(k, Slot(k))`. */
  lemma Placement(c: Cursor, n: nat, data: seq<WeightedLabel>, k: nat)
    requires n > 0 && k < |data|
    ensures var b := Slot(c, n, k);
      var buckets := Deal(c, n, Labels(SortDescending(data)));
      0 <= ClosedCount(c, n, k, b) < |buckets[b]| && buckets[b][ClosedCount(c, n, k, b)] == SortDescending(data)[k].value
  {
    var labels := Labels(SortDescending(data));
    DealPlacement(c, n, labels, k);
    CountIsClosed(c, n, k, Slot(c, n, k));
  }

  /** What every partition of `data` dealt along cursor `c` satisfies. */
  lemma PartitionFacts(c: Cursor, n: nat, data: seq<WeightedLabel>)
    requires n > 0 || data == []
    ensures var buckets := Deal(c, n, Labels(SortDescending(data)));
      && multiset(Flatten(buckets)) == multiset(Labels(data))
      && (forall b1, b2 :: 0 <= b1 < n && 0 <= b2 < n ==> |buckets[b1]| <= |buckets[b2]| + 1)
      && (forall b :: 0 <= b < n ==> (buckets[b] != [] <==> b < |data|))
  {
    var labels := Labels(SortDescending(data));
    DealIsPermutation(c, n, labels);
    SortKeepsLabels(data);
    forall b1, b2 | 0 <= b1 < n && 0 <= b2 < n
      ensures |Deal(c, n, labels)[b1]| <= |Deal(c, n, labels)[b2]| + 1
    {
      DealBalanced(c, n, labels, b1, b2);
    }
    forall b | 0 <= b < n
      ensures Deal(c, n, labels)[b] != [] <==> b < |data|
    {
      DealOccupied(c, n, labels, b);
    }
  }

  /**
   * Items are consumed in descending `(weight, label)` order, so every bucket
   * holds its labels in descending order of their tuples, and hence of weight.
   */
  lemma PartitionBucketsDescending(c: Cursor, n: nat, data: seq<WeightedLabel>, b: nat)
    requires n > 0 && b < n
    ensures var pairs := Deal(c, n, SortDescending(data))[b];
      && Descending(pairs)
      && Deal(c, n, Labels(SortDescending(data)))[b] == Labels(pairs)
      && (forall i, j :: 0 <= i < j < |pairs| ==> pairs[j].weight <= pairs[i].weight)
  {
    DealKeepsDescending(c, n, SortDescending(data), b);
    DealLabels(c, n, SortDescending(data), b);
  }

}
