/** Facts about sequences that a loop over one needs at every turn. */
module Sequences {
  lemma TakeOneMore<T>(s: seq<T>, i: nat)
    requires i < |s|
    ensures s[..i + 1] == s[..i] + [s[i]]
  {
  }

  lemma TakeAll<T>(s: seq<T>)
    ensures s[..|s|] == s
  {
  }

  /** Where a run of events leads, one step each. */
  function Fold<W, E>(step: (W, E) -> W, w: W, events: seq<E>): W
    decreases |events|
  {
    if events == [] then w else step(Fold(step, w, events[..|events| - 1]), events[|events| - 1])
  }

  lemma {:induction false} FoldGoesOn<W, E>(step: (W, E) -> W, w: W, first: seq<E>, more: seq<E>)
    ensures Fold(step, w, first + more) == Fold(step, Fold(step, w, first), more)
    decreases |more|
  {
    if more == [] {
      assert first + more == first;
    } else {
      FoldGoesOn(step, w, first, more[..|more| - 1]);
      assert (first + more)[..|first + more| - 1] == first + more[..|more| - 1];
    }
  }

  lemma FoldFirst<W, E>(step: (W, E) -> W, w: W, e: E, rest: seq<E>)
    ensures Fold(step, w, [e] + rest) == Fold(step, step(w, e), rest)
  {
    FoldGoesOn(step, w, [e], rest);
    assert [e][..0] == [];
  }
}
