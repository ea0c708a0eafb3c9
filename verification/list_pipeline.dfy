/** The filter -> sort -> count steps shared by the incident tables, the
    maintenance queue, the resource list, the alert feed and the message
    channel. Every step is a pure function of an immutable sequence. */
module ListPipeline {
  import opened Text
  import opened Wrappers

  // ---------------------------------------------------------------------------
  // Counting and filtering
  // ---------------------------------------------------------------------------

  /** `xs.filter(p).length`. */
  function Count<T>(xs: seq<T>, p: T -> bool): (n: nat)
    ensures n <= |xs|
    decreases |xs|
  {
    if |xs| == 0 then 0 else (if p(xs[0]) then 1 else 0) + Count(xs[1..], p)
  }

  /** `a` can be obtained from `b` by deleting elements: same relative order. */
  predicate IsSubsequence<T(==)>(a: seq<T>, b: seq<T>)
    decreases |b|
  {
    if |a| == 0 then true
    else if |b| == 0 then false
    else (a[0] == b[0] && IsSubsequence(a[1..], b[1..])) || IsSubsequence(a, b[1..])
  }

  /** `r` holds exactly the elements of `xs` that satisfy `p`, in their original
      order: every element satisfies `p`, none is reordered, none is missing. */
  ghost predicate IsExactSelection<T>(r: seq<T>, xs: seq<T>, p: T -> bool) {
    && (forall i :: 0 <= i < |r| ==> p(r[i]))
    && IsSubsequence(r, xs)
    && |r| == Count(xs, p)
  }

  /** `xs.filter(p)`. */
  function Filter<T(==)>(xs: seq<T>, p: T -> bool): (r: seq<T>)
    ensures IsExactSelection(r, xs, p)
    ensures forall i :: 0 <= i < |xs| && p(xs[i]) ==> xs[i] in r
    ensures multiset(r) <= multiset(xs)
    decreases |xs|
  {
    if |xs| == 0 then []
    else
      var rest := Filter(xs[1..], p);
      assert xs == [xs[0]] + xs[1..];
      if p(xs[0]) then [xs[0]] + rest else rest
  }

  /** The predicate `record[field] === value`. */
  function Matches<T>(field: T -> string, value: string): T -> bool {
    x => field(x) == value
  }

  /** The filter sentinel: selecting it means "no filtering". */
  const All: string := "all"

  /** `choice === 'all' ? xs : xs.filter(x => field(x) === choice)`. */
  function Select<T(==)>(xs: seq<T>, field: T -> string, choice: string): (r: seq<T>)
    ensures choice == All ==> r == xs
    ensures choice != All ==> IsExactSelection(r, xs, Matches(field, choice))
    ensures choice != All ==> forall i :: 0 <= i < |xs| && field(xs[i]) == choice ==> xs[i] in r
    ensures IsSubsequence(r, xs) && |r| <= |xs|
  {
    SubsequenceReflexive(xs);
    if choice == All then xs else Filter(xs, Matches(field, choice))
  }

  lemma {:induction false} SubsequenceReflexive<T>(xs: seq<T>)
    ensures IsSubsequence(xs, xs)
    decreases |xs|
  {
    if |xs| > 0 {
      SubsequenceReflexive(xs[1..]);
    }
  }

  /** Counting distributes over concatenation, so a count over a whole
      collection is the sum of the counts over the parts of any split of it. */
  lemma {:induction false} CountAppend<T>(xs: seq<T>, ys: seq<T>, p: T -> bool)
    ensures Count(xs + ys, p) == Count(xs, p) + Count(ys, p)
    decreases |xs|
  {
    if |xs| == 0 {
      assert xs + ys == ys;
    } else {
      assert (xs + ys)[0] == xs[0];
      assert (xs + ys)[1..] == xs[1..] + ys;
      CountAppend(xs[1..], ys, p);
    }
  }

  /** A weaker predicate never counts fewer elements. */
  lemma {:induction false} CountMonotone<T>(xs: seq<T>, p: T -> bool, q: T -> bool)
    requires forall x :: p(x) ==> q(x)
    ensures Count(xs, p) <= Count(xs, q)
    decreases |xs|
  {
    if |xs| > 0 {
      CountMonotone(xs[1..], p, q);
    }
  }

  /** A predicate nothing satisfies counts nothing. */
  lemma {:induction false} CountNone<T>(xs: seq<T>, p: T -> bool)
    requires forall x :: !p(x)
    ensures Count(xs, p) == 0
    decreases |xs|
  {
    if |xs| > 0 {
      CountNone(xs[1..], p);
    }
  }

  /** Nothing is counted exactly when no element satisfies the predicate. */
  lemma {:induction false} CountZeroIff<T>(xs: seq<T>, p: T -> bool)
    ensures Count(xs, p) == 0 <==> forall i :: 0 <= i < |xs| ==> !p(xs[i])
    decreases |xs|
  {
    if |xs| > 0 {
      CountZeroIff(xs[1..], p);
      assert forall i :: 1 <= i < |xs| ==> xs[i] == xs[1..][i - 1];
    }
  }

  /** Predicates that agree on every element count the same. */
  lemma {:induction false} CountCongruent<T>(xs: seq<T>, p: T -> bool, q: T -> bool)
    requires forall i :: 0 <= i < |xs| ==> p(xs[i]) == q(xs[i])
    ensures Count(xs, p) == Count(xs, q)
    decreases |xs|
  {
    if |xs| > 0 {
      assert forall i :: 1 <= i < |xs| ==> xs[1..][i - 1] == xs[i];
      CountCongruent(xs[1..], p, q);
    }
  }

  /** Counts of two exclusive predicates add up to the count of their union `pq`. */
  lemma {:induction false} CountDisjointUnion<T>(xs: seq<T>, p: T -> bool, q: T -> bool, pq: T -> bool)
    requires forall x :: !(p(x) && q(x))
    requires forall x :: pq(x) == (p(x) || q(x))
    ensures Count(xs, p) + Count(xs, q) == Count(xs, pq)
    decreases |xs|
  {
    if |xs| > 0 {
      CountDisjointUnion(xs[1..], p, q, pq);
    }
  }

  /** Counting `q` inside a list filtered by `p` counts the elements
      satisfying both, as `pq` does. */
  lemma {:induction false} CountFilter<T>(xs: seq<T>, p: T -> bool, q: T -> bool, pq: T -> bool)
    requires forall x :: pq(x) == (p(x) && q(x))
    ensures Count(Filter(xs, p), q) == Count(xs, pq)
    decreases |xs|
  {
    if |xs| > 0 {
      CountFilter(xs[1..], p, q, pq);
    }
  }

  /** Three pairwise exclusive predicates together count at most every element once. */
  lemma {:induction false} CountDisjoint3<T>(xs: seq<T>, p: T -> bool, q: T -> bool, r: T -> bool)
    requires forall x :: !(p(x) && q(x)) && !(p(x) && r(x)) && !(q(x) && r(x))
    ensures Count(xs, p) + Count(xs, q) + Count(xs, r) <= |xs|
    decreases |xs|
  {
    if |xs| > 0 {
      CountDisjoint3(xs[1..], p, q, r);
    }
  }

  /** Filtering a list with one more element at the end filters the list
      and then keeps or drops that element. */
  lemma {:induction false} FilterAppend<T>(xs: seq<T>, x: T, p: T -> bool)
    ensures Filter(xs + [x], p) == Filter(xs, p) + (if p(x) then [x] else [])
    decreases |xs|
  {
    if |xs| == 0 {
      assert xs + [x] == [x];
    } else {
      assert (xs + [x])[0] == xs[0];
      assert (xs + [x])[1..] == xs[1..] + [x];
      FilterAppend(xs[1..], x, p);
    }
  }

  /** Filtering twice by the same predicate is filtering once. */
  lemma {:induction false} FilterIdempotent<T>(xs: seq<T>, p: T -> bool)
    ensures Filter(Filter(xs, p), p) == Filter(xs, p)
    decreases |xs|
  {
    if |xs| > 0 {
      FilterIdempotent(xs[1..], p);
    }
  }

  /** Applying the same exact-match filter twice changes nothing the second time. */
  lemma SelectIdempotent<T>(xs: seq<T>, field: T -> string, choice: string)
    ensures Select(Select(xs, field, choice), field, choice) == Select(xs, field, choice)
  {
    if choice != All {
      FilterIdempotent(xs, Matches(field, choice));
    }
  }

  /** A subsequence of elements that all satisfy `p` has at most as many
      elements as `p` counts. */
  lemma {:induction false} SelectionBounded<T>(r: seq<T>, xs: seq<T>, p: T -> bool)
    requires forall i :: 0 <= i < |r| ==> p(r[i])
    requires IsSubsequence(r, xs)
    ensures |r| <= Count(xs, p)
    decreases |xs|
  {
    if |r| > 0 {
      if r[0] == xs[0] && IsSubsequence(r[1..], xs[1..]) {
        SelectionBounded(r[1..], xs[1..], p);
      } else {
        SelectionBounded(r, xs[1..], p);
      }
    }
  }

  /** There is only one exact selection: the characterisation pins down the
      filtered list completely, so any filter meeting it is `Filter`. */
  lemma {:induction false} ExactSelectionUnique<T>(r: seq<T>, xs: seq<T>, p: T -> bool)
    requires IsExactSelection(r, xs, p)
    ensures r == Filter(xs, p)
    decreases |xs|
  {
    if |xs| > 0 {
      var rest := xs[1..];
      if p(xs[0]) {
        // Skipping xs[0] would leave too few matching elements.
        if |r| > 0 && r[0] == xs[0] && IsSubsequence(r[1..], rest) {
          ExactSelectionUnique(r[1..], rest, p);
        } else {
          SelectionBounded(r, rest, p);
        }
      } else if |r| > 0 {
        assert r[0] != xs[0];
        ExactSelectionUnique(r, rest, p);
      }
    }
  }

  /** Counting over a subsequence never finds more than over the whole. */
  lemma {:induction false} CountSubsequence<T>(a: seq<T>, b: seq<T>, p: T -> bool)
    requires IsSubsequence(a, b)
    ensures Count(a, p) <= Count(b, p)
    decreases |b|
  {
    if |a| > 0 {
      if a[0] == b[0] && IsSubsequence(a[1..], b[1..]) {
        CountSubsequence(a[1..], b[1..], p);
      } else {
        CountSubsequence(a, b[1..], p);
      }
    }
  }

  /** `xs.find(p)`: the first element satisfying `p`, or `undefined`. */
  function Find<T>(xs: seq<T>, p: T -> bool): (r: Option<T>)
    ensures r.None? <==> forall i :: 0 <= i < |xs| ==> !p(xs[i])
    ensures r.Some? ==> exists i :: 0 <= i < |xs| && xs[i] == r.value && p(xs[i])
                                    && forall j :: 0 <= j < i ==> !p(xs[j])
    decreases |xs|
  {
    if |xs| == 0 then None
    else if p(xs[0]) then Some(xs[0])
    else
      var r := Find(xs[1..], p);
      assert forall i :: 1 <= i < |xs| ==> xs[i] == xs[1..][i - 1];
      r
  }

  /** `xs.slice(0, n)`: the first `n` elements, or all of them when fewer. */
  function Take<T>(xs: seq<T>, n: nat): (r: seq<T>)
    ensures |r| == (if |xs| < n then |xs| else n)
    ensures forall i :: 0 <= i < |r| ==> r[i] == xs[i]
  {
    if |xs| < n then xs else xs[..n]
  }

  // ---------------------------------------------------------------------------
  // Sorting
  // ---------------------------------------------------------------------------

  datatype Direction = Asc | Desc

  /** A sort key as JavaScript's relational operators see it: a number
      (including a date's `getTime()` instant) or a string. */
  datatype Key = Num(n: int) | Str(s: string)

  /** `a < b` on keys. A sort field always yields keys of one kind; ordering
      numbers before strings only makes the relation total. */
  predicate KeyLess(a: Key, b: Key) {
    match (a, b)
    case (Num(x), Num(y)) => x < y
    case (Str(x), Str(y)) => LexLess(x, y)
    case (Num(_), Str(_)) => true
    case (Str(_), Num(_)) => false
  }

  /** `a` must come strictly before `b` in the given direction. */
  predicate Precedes(a: Key, b: Key, dir: Direction) {
    if dir == Asc then KeyLess(a, b) else KeyLess(b, a)
  }

  /** The comparator of both incident tables:
      `asc ? (a > b ? 1 : -1) : (a < b ? 1 : -1)`. */
  function Compare(a: Key, b: Key, dir: Direction): (c: int)
    ensures c == 1 || c == -1
    ensures c == 1 <==> Precedes(b, a, dir)
  {
    if dir == Asc then (if KeyLess(b, a) then 1 else -1)
    else (if KeyLess(a, b) then 1 else -1)
  }

  lemma KeyLessIrreflexive(a: Key)
    ensures !KeyLess(a, a)
  {
    if a.Str? {
      LexLessIrreflexive(a.s);
    }
  }

  lemma KeyLessTransitive(a: Key, b: Key, c: Key)
    requires KeyLess(a, b) && KeyLess(b, c)
    ensures KeyLess(a, c)
  {
    if a.Str? && b.Str? && c.Str? {
      LexLessTransitive(a.s, b.s, c.s);
    }
  }

  lemma KeyLessAsymmetric(a: Key, b: Key)
    ensures KeyLess(a, b) ==> !KeyLess(b, a)
  {
    if a.Str? && b.Str? {
      LexLessAsymmetric(a.s, b.s);
    }
  }

  lemma KeyLessTotal(a: Key, b: Key)
    requires a != b
    ensures KeyLess(a, b) || KeyLess(b, a)
  {
    if a.Str? && b.Str? {
      LexLessTotal(a.s, b.s);
    }
  }

  lemma PrecedesAsymmetric(a: Key, b: Key, dir: Direction)
    ensures Precedes(a, b, dir) ==> !Precedes(b, a, dir)
  {
    KeyLessAsymmetric(a, b);
    KeyLessAsymmetric(b, a);
  }

  lemma PrecedesTransitive(a: Key, b: Key, c: Key, dir: Direction)
    requires Precedes(a, b, dir) && Precedes(b, c, dir)
    ensures Precedes(a, c, dir)
  {
    if dir == Asc {
      KeyLessTransitive(a, b, c);
    } else {
      KeyLessTransitive(c, b, a);
    }
  }

  /** "Not after": `b` does not strictly precede `a`. It is transitive because
      `Precedes` is a strict total order. */
  lemma NotPrecedesTransitive(a: Key, b: Key, c: Key, dir: Direction)
    requires !Precedes(b, a, dir) && !Precedes(c, b, dir)
    ensures !Precedes(c, a, dir)
  {
    if a != b && b != c {
      KeyLessTotal(a, b);
      KeyLessTotal(b, c);
      PrecedesTransitive(a, b, c, dir);
      PrecedesAsymmetric(a, c, dir);
    }
  }

  /** No element is strictly preceded by a later one. */
  ghost predicate Ordered<T>(r: seq<T>, key: T -> Key, dir: Direction) {
    forall i, j :: 0 <= i < j < |r| ==> !Precedes(key(r[j]), key(r[i]), dir)
  }

  /** What any engine may return for `[...xs].sort(comparator)`: a permutation of
      `xs` in which no element is strictly preceded by a later one. Because the
      comparator never returns 0, nothing is promised about the order of rows
      with equal keys. */
  ghost predicate IsSortOutcome<T>(xs: seq<T>, r: seq<T>, key: T -> Key, dir: Direction) {
    multiset(r) == multiset(xs) && Ordered(r, key, dir)
  }

  /** Putting in front an element that no later one strictly precedes keeps
      a sequence ordered. */
  lemma OrderedCons<T>(h: T, rest: seq<T>, key: T -> Key, dir: Direction)
    requires Ordered(rest, key, dir)
    requires forall e :: e in multiset(rest) ==> !Precedes(key(e), key(h), dir)
    ensures Ordered([h] + rest, key, dir)
  {
    var r := [h] + rest;
    forall i, j | 0 <= i < j < |r|
      ensures !Precedes(key(r[j]), key(r[i]), dir)
    {
      if i == 0 {
        assert r[j] == rest[j - 1] && rest[j - 1] in multiset(rest);
      } else {
        assert r[i] == rest[i - 1] && r[j] == rest[j - 1];
      }
    }
  }

  function Insert<T>(x: T, s: seq<T>, key: T -> Key, dir: Direction): (r: seq<T>)
    requires Ordered(s, key, dir)
    ensures multiset(r) == multiset(s) + multiset{x}
    ensures Ordered(r, key, dir)
    decreases |s|
  {
    if |s| == 0 then
      [x]
    else if Precedes(key(s[0]), key(x), dir) then
      var rest := Insert(x, s[1..], key, dir);
      InsertAfterHead(x, s, rest, key, dir);
      [s[0]] + rest
    else
      InsertAtHead(x, s, key, dir);
      [x] + s
  }

  lemma InsertAfterHead<T>(x: T, s: seq<T>, rest: seq<T>, key: T -> Key, dir: Direction)
    requires |s| > 0 && Ordered(s, key, dir) && Precedes(key(s[0]), key(x), dir)
    requires Ordered(rest, key, dir) && multiset(rest) == multiset(s[1..]) + multiset{x}
    ensures multiset([s[0]] + rest) == multiset(s) + multiset{x}
    ensures Ordered([s[0]] + rest, key, dir)
  {
    assert s == [s[0]] + s[1..];
    PrecedesAsymmetric(key(s[0]), key(x), dir);
    forall e | e in multiset(rest)
      ensures !Precedes(key(e), key(s[0]), dir)
    {
      if e != x {
        assert e in multiset(s[1..]);
        var k :| 0 <= k < |s[1..]| && s[1..][k] == e;
        assert s[k + 1] == e;
      }
    }
    OrderedCons(s[0], rest, key, dir);
  }

  lemma InsertAtHead<T>(x: T, s: seq<T>, key: T -> Key, dir: Direction)
    requires |s| > 0 && Ordered(s, key, dir) && !Precedes(key(s[0]), key(x), dir)
    ensures Ordered([x] + s, key, dir)
  {
    forall e | e in multiset(s)
      ensures !Precedes(key(e), key(x), dir)
    {
      var k :| 0 <= k < |s| && s[k] == e;
      if k > 0 {
        NotPrecedesTransitive(key(x), key(s[0]), key(s[k]), dir);
      }
    }
    OrderedCons(x, s, key, dir);
  }

  /** `[...xs].sort(comparator)` for one particular engine: an insertion sort. */
  function SortBy<T>(xs: seq<T>, key: T -> Key, dir: Direction): (r: seq<T>)
    ensures IsSortOutcome(xs, r, key, dir)
    decreases |xs|
  {
    if |xs| == 0 then []
    else
      assert xs == [xs[0]] + xs[1..];
      Insert(xs[0], SortBy(xs[1..], key, dir), key, dir)
  }

  /** No two elements share a sort key. */
  ghost predicate DistinctKeys<T>(xs: seq<T>, key: T -> Key) {
    forall i, j :: 0 <= i < j < |xs| ==> key(xs[i]) != key(xs[j])
  }

  /** An element found at two positions occurs at least twice. */
  lemma TwoPositions<T>(s: seq<T>, i: int, j: int)
    requires 0 <= i < j < |s| && s[i] == s[j]
    ensures multiset(s)[s[i]] >= 2
  {
    assert s == s[..j] + [s[j]] + s[j + 1..];
    assert s[..j][i] == s[i];
    assert s[i] in multiset(s[..j]);
  }

  /** An element that occurs at least twice is found at two positions. */
  lemma TwiceFoundTwice<T>(s: seq<T>, v: T) returns (i: int, j: int)
    requires multiset(s)[v] >= 2
    ensures 0 <= i < j < |s| && s[i] == v && s[j] == v
  {
    assert v in multiset(s);
    var k :| 0 <= k < |s| && s[k] == v;
    assert s == s[..k] + [s[k]] + s[k + 1..];
    if v in multiset(s[k + 1..]) {
      var m :| 0 <= m < |s[k + 1..]| && s[k + 1..][m] == v;
      i, j := k, k + 1 + m;
    } else {
      assert v in multiset(s[..k]);
      var m :| 0 <= m < k && s[..k][m] == v;
      i, j := m, k;
    }
  }

  /** Distinct keys survive any permutation. */
  lemma DistinctKeysPermutation<T>(xs: seq<T>, r: seq<T>, key: T -> Key)
    requires multiset(r) == multiset(xs) && DistinctKeys(xs, key)
    ensures DistinctKeys(r, key)
  {
    forall i, j | 0 <= i < j < |r|
      ensures key(r[i]) != key(r[j])
    {
      assert r[i] in multiset(xs) && r[j] in multiset(xs);
      var a :| 0 <= a < |xs| && xs[a] == r[i];
      var b :| 0 <= b < |xs| && xs[b] == r[j];
      if a == b {
        TwoPositions(r, i, j);
        var p, q := TwiceFoundTwice(xs, r[i]);
      }
    }
  }

  /** With pairwise distinct keys, every sort outcome is strictly increasing
      ('asc') or strictly decreasing ('desc') in its keys. */
  lemma DistinctKeysSortStrict<T>(xs: seq<T>, r: seq<T>, key: T -> Key, dir: Direction)
    requires IsSortOutcome(xs, r, key, dir) && DistinctKeys(xs, key)
    ensures forall i, j :: 0 <= i < j < |r| ==> Precedes(key(r[i]), key(r[j]), dir)
  {
    DistinctKeysPermutation(xs, r, key);
    forall i, j | 0 <= i < j < |r|
      ensures Precedes(key(r[i]), key(r[j]), dir)
    {
      KeyLessTotal(key(r[i]), key(r[j]));
    }
  }

  // ---------------------------------------------------------------------------
  // The sort header's state machine
  // ---------------------------------------------------------------------------

  datatype SortState<F> = SortState(field: F, direction: Direction)

  /** `handleSort(field)`: the active field flips direction; another field
      becomes active, descending. */
  function HandleSort<F(==)>(s: SortState<F>, field: F): (t: SortState<F>)
    ensures t.field == field
    ensures s.field == field ==> t.direction != s.direction
    ensures s.field != field ==> t.direction == Desc
  {
    if s.field == field then SortState(field, if s.direction == Asc then Desc else Asc)
    else SortState(field, Desc)
  }

  /** Two clicks on the active header restore the state. */
  lemma HandleSortInvolution<F>(s: SortState<F>)
    ensures HandleSort(HandleSort(s, s.field), s.field) == s
  {
  }

  /** Two clicks on a new header leave it ascending. */
  lemma HandleSortNewFieldTwice<F>(s: SortState<F>, field: F)
    requires s.field != field
    ensures HandleSort(HandleSort(s, field), field) == SortState(field, Asc)
  {
  }
}
