/** `Runner.markSkipped`: the loop over the commits between two tested ones. */
module Skipped {
  import opened Common
  import opened Lifecycle
  import R = Reconcile

  /** The commits markSkipped posts on, among those it is given. */
  function Overlooked(repo: Repo, tested: Sha, seen: set<Commit>, shas: seq<Sha>): set<Commit> {
    set s | s in shas && s != tested && Commit(repo, s) !in seen :: Commit(repo, s)
  }

  function Explained(l: Ledger, cs: set<Commit>): Ledger {
    l + map c | c in cs :: Place(c, Rollup) := Error
  }

  /** The rollup of a listed commit that was never tested, with another commit tested before. */
  predicate Marks(seen: set<Commit>, repo: Repo, prev: Option<Sha>, tested: Sha, compared: Option<seq<Sha>>, p: Place)
  {
    && prev.Some? && prev.value != tested && compared.Some?
    && p.context == Rollup && p.commit.repo == repo && p.commit.sha in compared.value
    && p.commit.sha != tested && p.commit !in seen
  }

  /** `compared` is what CompareCommits answers, None for an error. */
  method MarkSkipped(remote: R.Remote, seen: set<Commit>, repo: Repo, prev: Option<Sha>, tested: Sha,
                     compared: Option<seq<Sha>>)
    modifies remote
    ensures forall p :: p in remote.ledger <==>
                        p in old(remote.ledger) || Marks(seen, repo, prev, tested, compared, p)
    ensures forall p | p in remote.ledger ::
              remote.ledger[p] ==
              if Marks(seen, repo, prev, tested, compared, p) then Error else old(remote.ledger)[p]
  {
    if prev.None? || prev.value == tested { return; }
    if compared.None? { return; }
    SkipAll(remote, seen, repo, tested, compared.value);
    ExplainedExactly(old(remote.ledger), repo, tested, seen, compared.value);
    hide Explained, Overlooked;
  }

  /** The loop over the listed commits. */
  method SkipAll(remote: R.Remote, seen: set<Commit>, repo: Repo, tested: Sha, shas: seq<Sha>)
    modifies remote
    ensures remote.ledger == Explained(old(remote.ledger), Overlooked(repo, tested, seen, shas))
  {
    NothingOverlooked(remote.ledger, repo, tested, seen);
    hide Explained, Overlooked;
    for i := 0 to |shas|
      invariant remote.ledger == Explained(old(remote.ledger), Overlooked(repo, tested, seen, shas[..i]))
    {
      OneMoreExplained(old(remote.ledger), repo, tested, seen, shas[..i], shas[i]);
      assert shas[..i + 1] == shas[..i] + [shas[i]];
      if shas[i] != tested && Commit(repo, shas[i]) !in seen {
        remote.SetStatus(Commit(repo, shas[i]), Rollup, Error);
      }
    }
    assert shas[..|shas|] == shas;
  }

  lemma ExplainedExactly(l: Ledger, repo: Repo, tested: Sha, seen: set<Commit>, shas: seq<Sha>)
    ensures var after := Explained(l, Overlooked(repo, tested, seen, shas));
            forall p: Place ::
              var marked := p.context == Rollup && p.commit.repo == repo && p.commit.sha in shas
                            && p.commit.sha != tested && p.commit !in seen;
              && (p in after <==> p in l || marked)
              && (p in after ==> after[p] == if marked then Error else l[p])
  {
    var cs, after := Overlooked(repo, tested, seen, shas), Explained(l, Overlooked(repo, tested, seen, shas));
    forall p: Place
      ensures p in after <==> p in l || (p.context == Rollup && p.commit in cs)
      ensures p in after ==> after[p] == if p.context == Rollup && p.commit in cs then Error else l[p]
    {
      assert p.context == Rollup ==> p == Place(p.commit, Rollup);
    }
    forall c: Commit
      ensures c in cs <==> c.repo == repo && c.sha in shas && c.sha != tested && c !in seen
    {
      assert c.repo == repo ==> c == Commit(repo, c.sha);
    }
    hide Explained, Overlooked;
  }

  lemma OneMoreOverlooked(repo: Repo, tested: Sha, seen: set<Commit>, shas: seq<Sha>, s: Sha)
    ensures Overlooked(repo, tested, seen, shas + [s]) ==
            Overlooked(repo, tested, seen, shas)
            + if s == tested || Commit(repo, s) in seen then {} else {Commit(repo, s)}
  {
    assert forall x :: x in shas + [s] <==> x in shas || x == s;
  }

  lemma OneMoreExplained(l: Ledger, repo: Repo, tested: Sha, seen: set<Commit>, shas: seq<Sha>, s: Sha)
    ensures Explained(l, Overlooked(repo, tested, seen, shas + [s])) ==
            if s == tested || Commit(repo, s) in seen then Explained(l, Overlooked(repo, tested, seen, shas))
            else Explained(l, Overlooked(repo, tested, seen, shas))[Place(Commit(repo, s), Rollup) := Error]
  {
    OneMoreOverlooked(repo, tested, seen, shas, s);
    hide Overlooked;
  }

  // ----- the engine's loop is that method -----

  function Skips(n: nat): seq<Action> { seq(n, _ => Skip) }

  lemma NothingOverlooked(l: Ledger, repo: Repo, tested: Sha, seen: set<Commit>)
    ensures Explained(l, Overlooked(repo, tested, seen, [])) == l
  {
    assert Overlooked(repo, tested, seen, []) == {};
  }

  lemma OneSkip(w: World, s: State)
    requires s.pc.Skipping? && s.pc.run.origin.FromBranch? && s.pc.shas != []
    ensures Enabled(w, s, Skip)
    ensures var run, c := s.pc.run, Commit(RefOf(s.pc.run.origin).repo, s.pc.shas[0]);
            Step(w, s, Skip) ==
            s.(pc := Skipping(run, s.pc.shas[1..]),
               ledger := if s.pc.shas[0] == run.sha || c in s.seen then s.ledger
                         else s.ledger[Place(c, Rollup) := Error])
  {
    UnfoldLeave(w, s, Skip);
    hide Step;
  }

  /** The engine's skip steps leave the ledger that MarkSkipped leaves. */
  lemma {:induction false} SkipLoopIsMarkSkipped(w: World, s: State, n: nat)
    requires s.pc.Skipping? && s.pc.run.origin.FromBranch? && n <= |s.pc.shas|
    ensures var run, shas := s.pc.run, s.pc.shas;
            var repo := RefOf(run.origin).repo;
            Exec(w, s, Skips(n)) ==
            Some(s.(pc := Skipping(run, shas[n..]),
                    ledger := Explained(s.ledger, Overlooked(repo, run.sha, s.seen, shas[..n]))))
  {
    hide Enabled, Step, Explained, Overlooked;
    var run, shas := s.pc.run, s.pc.shas;
    var repo := RefOf(run.origin).repo;
    if n == 0 {
      assert Skips(0) == [] && shas[0..] == shas && shas[..0] == [];
      NothingOverlooked(s.ledger, repo, run.sha, s.seen);
    } else {
      SkipLoopIsMarkSkipped(w, s, n - 1);
      var before := Exec(w, s, Skips(n - 1)).value;
      hide Exec;
      assert Skips(n) == Skips(n - 1) + [Skip];
      assert shas[..n] == shas[..n - 1] + [shas[n - 1]] && shas[n - 1..][1..] == shas[n..];
      OneSkip(w, before);
      Extend(w, s, Skips(n - 1), Skip);
      OneMoreExplained(s.ledger, repo, run.sha, s.seen, shas[..n - 1], shas[n - 1]);
    }
  }
}
