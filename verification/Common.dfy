/** Vocabulary shared by the scheduler, the gate and the run lifecycle. */
module Common {

  datatype Option<+T> = None | Some(value: T)

  /** A commit hash. */
  datatype Sha = Sha(hex: string)

  /** "owner/name". */
  datatype Repo = Repo(owner: string, name: string)

  /** A watched branch. */
  datatype Ref = Ref(repo: Repo, branch: string)

  datatype Commit = Commit(repo: Repo, sha: Sha)

  /** The four states a GitHub commit status can be in. */
  datatype Status = Pending | Success | Failure | Error

  /** The commit-status contexts poll-ci posts on: the `ci` rollup, one context per
      gate step, and the promotion. */
  datatype Context = Rollup | Gated(step: string) | Promote

  /** Why a run's context was cancelled. Go's `context.Cause` keeps the first one. */
  datatype Cause = Superseded(tip: Sha) | Shutdown

  function FirstCause(current: Option<Cause>, later: Cause): (r: Option<Cause>)
    ensures r.Some? && (current.Some? ==> r == current)
  {
    if current.Some? then current else Some(later)
  }

  function Min(a: nat, b: nat): nat { if a <= b then a else b }
}

/** Sums over sequences, with the effect of changing one element. */
module Sums {

  ghost function Total(xs: seq<int>): int {
    if xs == [] then 0 else Total(xs[..|xs| - 1]) + xs[|xs| - 1]
  }

  ghost function TotalReal(xs: seq<real>): real {
    if xs == [] then 0.0 else TotalReal(xs[..|xs| - 1]) + xs[|xs| - 1]
  }

  lemma TotalUpdate(xs: seq<int>, i: nat, x: int)
    requires i < |xs|
    ensures Total(xs[i := x]) == Total(xs) - xs[i] + x
  {
    var n := |xs| - 1;
    if i == n {
      assert xs[i := x][..n] == xs[..n];
    } else {
      TotalUpdate(xs[..n], i, x);
      assert xs[i := x][..n] == xs[..n][i := x];
    }
  }

  lemma TotalRealUpdate(xs: seq<real>, i: nat, x: real)
    requires i < |xs|
    ensures TotalReal(xs[i := x]) == TotalReal(xs) - xs[i] + x
  {
    var n := |xs| - 1;
    if i == n {
      assert xs[i := x][..n] == xs[..n];
    } else {
      TotalRealUpdate(xs[..n], i, x);
      assert xs[i := x][..n] == xs[..n][i := x];
    }
  }

  lemma TotalNonNegative(xs: seq<int>)
    requires forall i | 0 <= i < |xs| :: xs[i] >= 0
    ensures Total(xs) >= 0
    ensures Total(xs) == 0 <==> forall i | 0 <= i < |xs| :: xs[i] == 0
  {
    if xs != [] { TotalNonNegative(xs[..|xs| - 1]); }
  }

  lemma TotalRealNonNegative(xs: seq<real>)
    requires forall i | 0 <= i < |xs| :: xs[i] >= 0.0
    ensures TotalReal(xs) >= 0.0
    ensures (forall i | 0 <= i < |xs| :: xs[i] == 0.0) ==> TotalReal(xs) == 0.0
  {
    if xs != [] { TotalRealNonNegative(xs[..|xs| - 1]); }
  }

  /** Two distinct terms of a sum of non-negative terms are together at most the sum. */
  lemma TwoTerms(xs: seq<real>, i: nat, j: nat)
    requires i < |xs| && j < |xs| && i != j
    requires forall k | 0 <= k < |xs| :: xs[k] >= 0.0
    ensures xs[i] + xs[j] <= TotalReal(xs)
  {
    var rest := xs[i := 0.0][j := 0.0];
    TotalRealUpdate(xs, i, 0.0);
    TotalRealUpdate(xs[i := 0.0], j, 0.0);
    TotalRealNonNegative(rest);
  }
}
