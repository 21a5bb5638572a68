/** Folding a fallible step over a sequence, from the front. */
module Folding {
  import opened Outcome

  function Fold<S, X, E>(step: (S, X) -> Result<S, E>, start: S, xs: seq<X>): Result<S, E> {
    if xs == [] then Ok(start)
    else
      match Fold(step, start, xs[..|xs| - 1])
      case Err(e) => Err(e)
      case Ok(s) => step(s, xs[|xs| - 1])
  }

  lemma FoldNext<S, X, E>(step: (S, X) -> Result<S, E>, start: S, xs: seq<X>, i: nat)
    requires i < |xs| && Fold(step, start, xs[..i]).Ok?
    ensures Fold(step, start, xs[..i + 1]) == step(Fold(step, start, xs[..i]).value, xs[i])
  {
    assert xs[..i + 1][..i] == xs[..i];
  }

  /** A fault in a prefix is the fault of the whole. */
  lemma {:induction false} FoldStops<S, X, E>(step: (S, X) -> Result<S, E>, start: S, xs: seq<X>, n: nat)
    requires n <= |xs| && Fold(step, start, xs[..n]).Err?
    ensures Fold(step, start, xs) == Fold(step, start, xs[..n])
  {
    if n < |xs| {
      assert xs[..|xs| - 1][..n] == xs[..n];
      FoldStops(step, start, xs[..|xs| - 1], n);
    } else {
      assert xs[..n] == xs;
    }
  }
}
