/**
 * The two Eloquent query shapes the core uses on a table held as a sequence
 * in insertion order: `->first()` (the first row that matches) and
 * `->latest()->first()` (the most recently created row that matches).
 */
module Queries {
  import opened Wrappers

  /** Index of the first element satisfying `matches`, if any. */
  function FirstMatch<T>(xs: seq<T>, matches: T -> bool): (r: Option<nat>)
    ensures r.Some? ==> r.value < |xs| && matches(xs[r.value])
    ensures r.Some? ==> forall j :: 0 <= j < r.value ==> !matches(xs[j])
    ensures r.None? ==> forall j :: 0 <= j < |xs| ==> !matches(xs[j])
  {
    if |xs| == 0 then None
    else if matches(xs[0]) then Some(0)
    else match FirstMatch(xs[1..], matches)
      case None => None
      case Some(k) => Some(k + 1)
  }

  /** Index of the last (most recently created) element satisfying `matches`, if any. */
  function LastMatch<T>(xs: seq<T>, matches: T -> bool): (r: Option<nat>)
    ensures r.Some? ==> r.value < |xs| && matches(xs[r.value])
    ensures r.Some? ==> forall j :: r.value < j < |xs| ==> !matches(xs[j])
    ensures r.None? ==> forall j :: 0 <= j < |xs| ==> !matches(xs[j])
  {
    if |xs| == 0 then None
    else if matches(xs[|xs| - 1]) then Some(|xs| - 1)
    else LastMatch(xs[..|xs| - 1], matches)
  }

  /** A row appended last is the latest match, whatever came before it. */
  lemma {:induction false} LastMatchOfAppended<T>(xs: seq<T>, x: T, matches: T -> bool)
    requires matches(x)
    ensures LastMatch(xs + [x], matches) == Some(|xs|)
  {
  }

  /** Appending a row that does not match leaves the latest match where it was. */
  lemma {:induction false} LastMatchSkipsUnrelated<T>(xs: seq<T>, x: T, matches: T -> bool)
    requires !matches(x)
    ensures LastMatch(xs + [x], matches) == LastMatch(xs, matches)
  {
    assert (xs + [x])[..|xs|] == xs;
  }
}
