/** The two kinds of click toggles the dashboards use: adding or removing an
    id in a list of active ids, and opening or closing a single selection. */
module Toggles {
  import opened ListPipeline
  import opened Wrappers

  /** No id occurs twice. */
  predicate NoDup<T(==)>(xs: seq<T>)
    decreases |xs|
  {
    |xs| == 0 || (xs[0] !in xs[1..] && NoDup(xs[1..]))
  }

  /** The predicate `x => x !== id`. */
  function Other<T(==)>(id: T): T -> bool {
    x => x != id
  }

  /** `list.includes(id) ? list.filter(x => x !== id) : [...list, id]`.
      The toggled id flips membership, every other id keeps it; a present id
      loses every occurrence with the rest kept in order, an absent one is
      appended at the end. */
  function ToggleMember(xs: seq<string>, id: string): (r: seq<string>)
    ensures forall x :: x in r <==> (if x == id then id !in xs else x in xs)
    ensures id in xs ==> IsExactSelection(r, xs, Other(id))
    ensures id !in xs ==> r == xs + [id]
  {
    if id in xs then
      var r := Filter(xs, Other(id));
      assert forall x :: x in r ==> x in multiset(xs) && Other(id)(x);
      r
    else
      xs + [id]
  }

  lemma {:induction false} NoDupTail<T>(xs: seq<T>)
    requires |xs| > 0 && NoDup(xs)
    ensures NoDup(xs[1..]) && xs[0] !in xs[1..]
  {
  }

  /** Removing elements keeps a list duplicate-free. */
  lemma {:induction false} FilterNoDup<T>(xs: seq<T>, p: T -> bool)
    requires NoDup(xs)
    ensures NoDup(Filter(xs, p))
    decreases |xs|
  {
    if |xs| > 0 {
      FilterNoDup(xs[1..], p);
    }
  }

  /** Appending an absent id keeps a list duplicate-free. */
  lemma {:induction false} AppendNoDup<T>(xs: seq<T>, id: T)
    requires NoDup(xs) && id !in xs
    ensures NoDup(xs + [id])
    decreases |xs|
  {
    if |xs| > 0 {
      assert (xs + [id])[1..] == xs[1..] + [id];
      AppendNoDup(xs[1..], id);
    }
  }

  /** In a duplicate-free list every id but one other survives removal. */
  lemma {:induction false} CountOthersNoDup<T>(xs: seq<T>, id: T)
    requires NoDup(xs)
    ensures Count(xs, Other(id)) == if id in xs then |xs| - 1 else |xs|
    decreases |xs|
  {
    if |xs| > 0 {
      assert xs == [xs[0]] + xs[1..];
      CountOthersNoDup(xs[1..], id);
    }
  }

  /** On a duplicate-free list a toggle changes the length by exactly one and
      keeps the list duplicate-free. */
  lemma ToggleLength(xs: seq<string>, id: string)
    requires NoDup(xs)
    ensures NoDup(ToggleMember(xs, id))
    ensures |ToggleMember(xs, id)| == if id in xs then |xs| - 1 else |xs| + 1
  {
    if id in xs {
      FilterNoDup(xs, Other(id));
      CountOthersNoDup(xs, id);
    } else {
      AppendNoDup(xs, id);
    }
  }

  /** Filtering out an id that only the appended last element carries gives
      back the list it was appended to. */
  lemma {:induction false} FilterDropsAppended<T>(xs: seq<T>, id: T)
    requires id !in xs
    ensures Filter(xs + [id], Other(id)) == xs
    decreases |xs|
  {
    if |xs| == 0 {
      assert xs + [id] == [id];
    } else {
      assert (xs + [id])[1..] == xs[1..] + [id];
      FilterDropsAppended(xs[1..], id);
    }
  }

  /** Toggling the same id twice restores which ids are active; an absent id
      leaves the list exactly as it was, a present one ends up, alone, at the
      end. */
  lemma ToggleTwice(xs: seq<string>, id: string)
    ensures forall x :: x in ToggleMember(ToggleMember(xs, id), id) <==> x in xs
    ensures id !in xs ==> ToggleMember(ToggleMember(xs, id), id) == xs
    ensures id in xs ==> ToggleMember(ToggleMember(xs, id), id) == Filter(xs, Other(id)) + [id]
  {
    if id !in xs {
      FilterDropsAppended(xs, id);
    }
  }

  /** `selected?.id === clicked.id ? null : clicked`: a click on the open
      item closes it, a click on any other item opens that one. */
  function ToggleSelection<T, K(==)>(selected: Option<T>, clicked: T, id: T -> K): (r: Option<T>)
    ensures r.None? <==> (selected.Some? && id(selected.value) == id(clicked))
    ensures r.Some? ==> r.value == clicked
  {
    if selected.Some? && id(selected.value) == id(clicked) then None else Some(clicked)
  }

  /** Two clicks on the same item: from closed it opens and closes again,
      from that item open it closes and reopens, and with another item open
      the first click switches to the clicked item and the second closes it,
      leaving nothing open. */
  lemma ToggleSelectionTwice<T, K>(selected: Option<T>, clicked: T, id: T -> K)
    ensures var twice := ToggleSelection(ToggleSelection(selected, clicked, id), clicked, id);
            if selected.Some? && id(selected.value) == id(clicked) then twice == Some(clicked)
            else twice == None
  {
  }
}
