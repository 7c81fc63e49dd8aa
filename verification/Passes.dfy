/** One pass over a vector that loses and regains elements while it is walked: each element, last to
    first, is taken out with `swap_remove`, visited, and pushed back if the visit keeps it. */
module Passes {
  import opened Wrappers

  /** What `swap_remove` leaves: the last element takes the place of the one removed. */
  function SwapRemoved<T>(s: seq<T>, n: nat): seq<T>
    requires n < |s|
  {
    if n == |s| - 1 then s[..n] else s[n := s[|s| - 1]][..|s| - 1]
  }

  function Rotated<T>(s: seq<T>): seq<T> { if s == [] then [] else [s[|s| - 1]] + s[..|s| - 1] }

  function Kept<T>(visit: Option<T>): seq<T> { if visit.Some? then [visit.value] else [] }

  /** What the pass leaves, given what each visit made of its element. */
  function Passed<T>(visits: seq<Option<T>>): seq<T> {
    if visits == [] then [] else Rotated(Passed(visits[1..])) + Kept(visits[0])
  }

  /** The survivors in their old order. */
  function Survivors<T>(visits: seq<Option<T>>): seq<T> {
    if visits == [] then [] else Kept(visits[0]) + Survivors(visits[1..])
  }

  /** Taking element `n` out leaves the unvisited ones alone and turns the visited ones. */
  lemma SwapRemoveStep<T>(todo: seq<T>, done: seq<T>)
    requires todo != []
    ensures SwapRemoved(todo + done, |todo| - 1) == todo[..|todo| - 1] + Rotated(done)
  {
  }

  /** One turn: the visited ones are turned, and the element taken out is pushed back if it stays. */
  lemma TurnOfPass<T>(todo: seq<T>, n: nat, visits: seq<Option<T>>)
    requires n < |todo| == |visits|
    ensures SwapRemoved(todo[..n + 1] + Passed(visits[n + 1..]), n) + Kept(visits[n])
            == todo[..n] + Passed(visits[n..])
  {
    SwapRemoveStep(todo[..n + 1], Passed(visits[n + 1..]));
    assert todo[..n + 1][..n] == todo[..n];
    assert visits[n..] == [visits[n]] + visits[n + 1..];
  }

  lemma RotatedSame<T>(s: seq<T>)
    ensures multiset(Rotated(s)) == multiset(s)
  {
    if s != [] { assert s == s[..|s| - 1] + [s[|s| - 1]]; }
  }

  /** No survivor is lost and none is doubled. */
  lemma {:induction false} PassKeepsSurvivors<T>(visits: seq<Option<T>>)
    ensures multiset(Passed(visits)) == multiset(Survivors(visits))
  {
    if visits != [] {
      PassKeepsSurvivors(visits[1..]);
      RotatedSame(Passed(visits[1..]));
    }
  }
}
