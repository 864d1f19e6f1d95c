/** Exactly what closes a gate context that a dead process left pending, and the run in
    which nothing ever does. */
module Stranded {
  import opened Common
  import opened Lifecycle
  import opened Safety = LifecycleSafety
  import opened Recovery
  import Store = LifecycleStore
  import G = Gate

  // ----- what closes a place -----

  /** A run on the place's commit is going on. */
  ghost predicate UnderWay(w: World, s: State, p: Place) {
    s.pc.Running? && RunCommit(s.pc.run) == p.commit && Known(w, p.commit, p.context)
  }

  /** A run on the place's commit is concluded: completed, or resolved as superseded. */
  ghost predicate Concludes(w: World, s: State, a: Action, p: Place) {
    a.Judge? && UnderWay(w, s, p) && s.pc.run.gate.pc.Done? && !JudgeStep(w, s).pc.Stopped?
  }

  /** The place is a rollup, and markSkipped posts on it. */
  predicate SkipMarks(s: State, a: Action, p: Place) {
    && a.Skip? && s.pc.Skipping? && s.pc.shas != [] && s.pc.shas[0] != s.pc.run.sha
    && Commit(RefOf(s.pc.run.origin).repo, s.pc.shas[0]) !in s.seen
    && p == Place(Commit(RefOf(s.pc.run.origin).repo, s.pc.shas[0]), Rollup)
  }

  /** Reconciliation posts on the place. */
  predicate Resolves(s: State, a: Action, p: Place) {
    && a.Resolve? && s.pc.Resolving? && s.pc.key in s.inFlight && s.pc.contexts != []
    && p == Place(Commit(KeyRepo(s.pc.key), s.inFlight[s.pc.key]), s.pc.contexts[0])
  }

  ghost predicate Closes(w: World, s: State, a: Action, p: Place) {
    Concludes(w, s, a, p) || SkipMarks(s, a, p) || Resolves(s, a, p)
  }

  ghost predicate ClosedBy(w: World, from: State, schedule: seq<Action>, p: Place) {
    schedule != [] &&
    var n := |schedule| - 1;
    (ClosedBy(w, from, schedule[..n], p)
     || (Exec(w, from, schedule[..n]).Some? && Closes(w, Exec(w, from, schedule[..n]).value, schedule[n], p)))
  }

  /** Shutdown cuts a run on the place's commit: what that run has posted on it stays. */
  ghost predicate Cuts(w: World, s: State, a: Action, p: Place) {
    a.Judge? && UnderWay(w, s, p) && s.pc.run.gate.pc.Done? && JudgeStep(w, s).pc.Stopped?
  }

  ghost predicate CutBy(w: World, from: State, schedule: seq<Action>, p: Place) {
    schedule != [] &&
    var n := |schedule| - 1;
    (CutBy(w, from, schedule[..n], p)
     || (Exec(w, from, schedule[..n]).Some? && Cuts(w, Exec(w, from, schedule[..n]).value, schedule[n], p)))
  }

  /** What the ledger says about the place, unless a run on it was cut. While a run is
      under way it is what that run last posted, or what it found. */
  ghost predicate ClosedInv(w: World, s: State, p: Place, closed: bool, cut: bool) {
    if cut then s.pc.Stopped?
    else if UnderWay(w, s, p) then Open(s.pc.run.base, p) <==> !closed
    else Open(s.ledger, p) <==> !closed
  }

  lemma GateGoesOn(s: State, gate: G.State)
    requires s.pc.Running?
    ensures var s' := WithGate(s, gate);
            && s'.pc.Running? && RunCommit(s'.pc.run) == RunCommit(s.pc.run) && s'.pc.run.base == s.pc.run.base
  {
  }

  lemma GateCloses(w: World, s: State, g: G.Action, before: set<Place>, p: Place, closed: bool, cut: bool)
    requires LedgerInv(w, s, before) && Enabled(w, s, Gate(g)) && ClosedInv(w, s, p, closed, cut)
    ensures ClosedInv(w, GateStep(s, g), p, closed, cut)
  {
    hide LedgerInv, WithGate, G.Step, G.Enabled, Known, RunCommit, Open;
    GateGoesOn(s, G.Step(s.pc.run.reading, s.pc.run.gate, g));
    if !UnderWay(w, s, p) { GateElsewhere(w, s, g, before, p); }
  }

  lemma JudgeElsewhere(w: World, s: State, p: Place)
    requires s.pc.Running? && s.pc.run.gate.pc.Done? && p.context != Promote && !UnderWay(w, s, p)
    ensures Open(JudgeStep(w, s).ledger, p) <==> Open(s.ledger, p)
  {
    hide PromoteTarget, G.WasSuperseded, RunCommit;
  }

  lemma JudgedInv(w: World, s: State, s': State, p: Place, closed: bool, cut: bool)
    requires ClosedInv(w, s, p, closed, cut) && s.pc.Running? && !s'.pc.Running?
    requires UnderWay(w, s, p) && !s'.pc.Stopped? ==> !Open(s'.ledger, p)
    requires !UnderWay(w, s, p) ==> (Open(s'.ledger, p) <==> Open(s.ledger, p))
    ensures ClosedInv(w, s', p, closed || (UnderWay(w, s, p) && !s'.pc.Stopped?),
                      cut || (UnderWay(w, s, p) && s'.pc.Stopped?))
  {
    hide Open, Known, RunCommit;
  }

  lemma JudgeClosesExactly(w: World, s: State, before: set<Place>, p: Place, closed: bool, cut: bool)
    requires LedgerInv(w, s, before) && s.pc.Running? && s.pc.run.gate.pc.Done? && p.context != Promote
    requires ClosedInv(w, s, p, closed, cut)
    ensures ClosedInv(w, JudgeStep(w, s), p, closed || Closes(w, s, Judge, p), cut || Cuts(w, s, Judge, p))
  {
    hide LedgerInv, ClosedInv, UnderWay, Open;
    var s' := JudgeStep(w, s);
    JudgedPc(w, s);
    assert !s'.pc.Running?;
    hide JudgeStep, SameFrame, Judged;
    if !UnderWay(w, s, p) {
      JudgeElsewhere(w, s, p);
    } else if !s'.pc.Stopped? {
      ConcludedIsClosed(w, s, before, p);
    }
    JudgedInv(w, s, s', p, closed, cut);
  }

  lemma ConcludedIsClosed(w: World, s: State, before: set<Place>, p: Place)
    requires LedgerInv(w, s, before) && s.pc.Running? && s.pc.run.gate.pc.Done? && p.context != Promote
    requires UnderWay(w, s, p) && !JudgeStep(w, s).pc.Stopped?
    ensures !Open(JudgeStep(w, s).ledger, p)
  {
    hide LedgerInv, JudgeStep, Known, Open;
    JudgedOwesNothing(w, s, before, p);
  }

  lemma BootClosesExactly(w: World, s: State, a: Action, p: Place, closed: bool, cut: bool)
    requires Enabled(w, s, a) && ClosedInv(w, s, p, closed, cut) && (a.Reconcile? || a.Resolve? || a.BootDone?)
    ensures ClosedInv(w, Step(w, s, a), p, closed || Closes(w, s, a, p), cut)
  {
    hide Step, Enabled, Known, Watched, RunCommit;
    UnfoldBoot(w, s, a);
  }

  lemma SkipClosesExactly(w: World, s: State, p: Place, closed: bool, cut: bool)
    requires s.pc.Skipping? && s.pc.run.origin.FromBranch? && ClosedInv(w, s, p, closed, cut)
    ensures ClosedInv(w, SkipStep(s), p, closed || SkipMarks(s, Skip, p), cut)
  {
    hide Known, G.WasSuperseded;
  }

  lemma EndClosesExactly(w: World, s: State, a: Action, p: Place, closed: bool, cut: bool)
    requires Enabled(w, s, a) && ClosedInv(w, s, p, closed, cut) && p.context != Promote
    requires a.Attempt? || a.AfterPromotion? || a.Mark?
    ensures ClosedInv(w, Step(w, s, a), p, closed, cut)
  {
    hide Step, Enabled, Known;
    UnfoldEnd(w, s, a);
  }

  lemma LeaveClosesExactly(w: World, s: State, a: Action, p: Place, closed: bool, cut: bool)
    requires Enabled(w, s, a) && ClosedInv(w, s, p, closed, cut) && (a.ClearSuperseded? || a.Clear?)
    ensures ClosedInv(w, Step(w, s, a), p, closed, cut)
  {
    hide Step, Enabled, Known, G.WasSuperseded, Open, RunCommit;
    UnfoldLeave(w, s, a);
  }

  lemma BegunOnLedger(w: World, s: State, o: Origin, sha: Sha, truth: seq<bool>)
    ensures NewRun(w, s, o, sha, truth).base == s.ledger
  {
  }

  lemma BeginClosesExactly(w: World, s: State, a: Action, p: Place, closed: bool, cut: bool)
    requires Enabled(w, s, a) && ClosedInv(w, s, p, closed, cut) && (a.StartBranchRun? || a.StartPull?)
    ensures ClosedInv(w, Step(w, s, a), p, closed, cut)
  {
    hide Step, Enabled;
    UnfoldBegin(w, s, a);
    if a.StartBranchRun? {
      BegunOnLedger(w, s, FromBranch(s.pc.loop, s.pc.tip, s.pc.at), s.pc.sha, a.truth);
    } else {
      BegunOnLedger(w, s, FromPull(s.pc.ref, a.number), a.sha, a.truth);
    }
    hide Known, NewRun, FitsTruth;
  }

  lemma WithinClosesExactly(w: World, s: State, a: Action, p: Place, closed: bool, cut: bool)
    requires Enabled(w, s, a) && ClosedInv(w, s, p, closed, cut)
    requires a.Move? || a.Shut? || a.Expire? || a.Observe? || a.Fire?
    ensures ClosedInv(w, Step(w, s, a), p, closed, cut)
  {
    hide Step, Enabled;
    UnfoldWithin(w, s, a);
    hide Known;
  }

  lemma SweepClosesExactly(w: World, s: State, a: Action, p: Place, closed: bool, cut: bool)
    requires Enabled(w, s, a) && ClosedInv(w, s, p, closed, cut)
    requires a.StartSweep? || a.NextRef? || a.PullsDone? || a.LeaveBranch?
    ensures ClosedInv(w, Step(w, s, a), p, closed, cut)
  {
    hide Step, Enabled, Known, Open;
    UnfoldSweep(w, s, a);
  }

  lemma PollClosesExactly(w: World, s: State, a: Action, p: Place, closed: bool, cut: bool)
    requires Enabled(w, s, a) && ClosedInv(w, s, p, closed, cut) && (a.LsRemote? || a.Clone? || a.SkipClone?)
    ensures ClosedInv(w, Step(w, s, a), p, closed, cut)
  {
    hide Step, Enabled, Known, Open;
    UnfoldPoll(w, s, a);
  }

  lemma ClosedStep(w: World, s: State, a: Action, before: set<Place>, p: Place, closed: bool, cut: bool)
    requires LedgerInv(w, s, before) && Enabled(w, s, a) && ClosedInv(w, s, p, closed, cut) && p.context != Promote
    ensures ClosedInv(w, Step(w, s, a), p, closed || Closes(w, s, a, p), cut || Cuts(w, s, a, p))
  {
    hide Step, Enabled, LedgerInv, ClosedInv, JudgeStep, UnderWay, GateStep, SkipStep;
    if a.Gate? {
      UnfoldWithin(w, s, a);
      GateCloses(w, s, a.a, before, p, closed, cut);
    } else if a.Move? || a.Shut? || a.Expire? || a.Observe? || a.Fire? {
      WithinClosesExactly(w, s, a, p, closed, cut);
    } else if a.Judge? {
      UnfoldEnd(w, s, a);
      JudgeClosesExactly(w, s, before, p, closed, cut);
    } else if a.Reconcile? || a.Resolve? || a.BootDone? {
      BootClosesExactly(w, s, a, p, closed, cut);
    } else if a.Skip? {
      UnfoldLeave(w, s, a);
      SkipClosesExactly(w, s, p, closed, cut);
    } else if a.StartBranchRun? || a.StartPull? {
      BeginClosesExactly(w, s, a, p, closed, cut);
    } else if a.ClearSuperseded? || a.Clear? {
      LeaveClosesExactly(w, s, a, p, closed, cut);
    } else if a.Attempt? || a.AfterPromotion? || a.Mark? {
      EndClosesExactly(w, s, a, p, closed, cut);
    } else if a.LsRemote? || a.Clone? || a.SkipClone? {
      PollClosesExactly(w, s, a, p, closed, cut);
    } else {
      SweepClosesExactly(w, s, a, p, closed, cut);
    }
  }

  lemma {:induction false} ClosedRun(w: World, from: State, schedule: seq<Action>, before: set<Place>, p: Place)
    requires ValidWorld(w) && LedgerInv(w, from, before) && Exec(w, from, schedule).Some? && !from.pc.Running?
    requires Open(from.ledger, p) && p.context != Promote
    ensures LedgerInv(w, Exec(w, from, schedule).value, before)
    ensures ClosedInv(w, Exec(w, from, schedule).value, p, ClosedBy(w, from, schedule, p), CutBy(w, from, schedule, p))
  {
    hide LedgerInv, ClosedInv, Closes, Cuts, Step, Enabled;
    if schedule == [] {
      assert ClosedInv(w, from, p, false, false) by { OpenIsNotClosed(w, from, p); }
    } else {
      var n := |schedule| - 1;
      var s := Exec(w, from, schedule[..n]).value;
      ClosedRun(w, from, schedule[..n], before, p);
      LedgerStep(w, s, schedule[n], before);
      ClosedStep(w, s, schedule[n], before, p, ClosedBy(w, from, schedule[..n], p), CutBy(w, from, schedule[..n], p));
    }
  }

  lemma OpenIsNotClosed(w: World, s: State, p: Place)
    requires Open(s.ledger, p) && !s.pc.Running?
    ensures ClosedInv(w, s, p, false, false)
  {
  }

  /** The ledger during a run is what the run found, overlaid by what it has posted. */
  lemma UnderWayMeans(w: World, s: State, before: set<Place>, p: Place)
    requires LedgerInv(w, s, before) && UnderWay(w, s, p)
    ensures Open(s.ledger, p) <==>
            if G.PostsFor(s.pc.run.posts, p.context) == [] then Open(s.pc.run.base, p)
            else Latest(s.pc.run.posts, p.context) == Some(Pending)
  {
    hide G.Inv;
    OverlayAt(s.pc.run.base, p.commit, s.pc.run.posts, p);
  }

  /** Exactly when a gate context left pending gets closed. From any reachable state
      between two runs on, through any failures, moves and shutdowns: unless shutdown cut a
      run on its commit, the context is still pending if and only if no run on its commit
      was concluded, reconciliation did not post on it, and it is not a rollup that was
      marked skipped; and while a run on its commit is under way that holds until the run
      itself posts on it, from when on its last post decides. */
  lemma ClosedExactly(w: World, first: State, from: State, schedule: seq<Action>, p: Place)
    requires ValidWorld(w) && Starts(first) && Reachable(w, first, from) && !from.pc.Running?
    requires Owed(from, p) && Exec(w, from, schedule).Some?
    ensures var s, cut := Exec(w, from, schedule).value, CutBy(w, from, schedule, p);
            && (cut ==> s.pc.Stopped?)
            && (!cut ==>
                  (Open(s.ledger, p) <==>
                   if UnderWay(w, s, p) && G.PostsFor(s.pc.run.posts, p.context) != []
                   then Latest(s.pc.run.posts, p.context) == Some(Pending)
                   else !ClosedBy(w, from, schedule, p)))
  {
    hide LedgerInv, ClosedBy, CutBy, UnderWay, Starts;
    var prefix :| Exec(w, first, prefix) == Some(from);
    LedgerRun(w, first, prefix);
    ClosedRun(w, from, schedule, OpenPlaces(first.ledger), p);
    var s := Exec(w, from, schedule).value;
    if UnderWay(w, s, p) { UnderWayMeans(w, s, OpenPlaces(first.ledger), p); }
  }

  /** After reconciliation no step posts for a marker, so what is left to close a context
      is a concluded run or a skip mark. */
  lemma {:induction false} NoResolvesAfterBoot(w: World, from: State, schedule: seq<Action>, p: Place)
    requires !from.pc.Boot? && !from.pc.Resolving? && Exec(w, from, schedule).Some?
    ensures var s := Exec(w, from, schedule).value;
            && !s.pc.Boot? && !s.pc.Resolving?
            && forall a :: Closes(w, s, a, p) ==> Concludes(w, s, a, p) || SkipMarks(s, a, p)
  {
    if schedule != [] {
      var n := |schedule| - 1;
      NoResolvesAfterBoot(w, from, schedule[..n], p);
      NeverBootsAgain(w, Exec(w, from, schedule[..n]).value, schedule[n]);
    }
    hide Concludes, SkipMarks, Exec;
  }

  lemma NeverBootsAgain(w: World, s: State, a: Action)
    requires !s.pc.Boot? && !s.pc.Resolving? && Enabled(w, s, a)
    ensures !Step(w, s, a).pc.Boot? && !Step(w, s, a).pc.Resolving?
  {
    hide Step, Enabled;
    UnfoldBoot(w, s, a);
    assert !a.Reconcile? && !a.Resolve? && !a.BootDone?;
    if a.Move? || a.Shut? || a.Expire? || a.Observe? || a.Fire? || a.Gate? {
      FrameWithin(w, s, a);
    } else if a.Judge? || a.Attempt? || a.AfterPromotion? || a.Mark? {
      EndNeverBoots(w, s, a);
    } else if a.ClearSuperseded? || a.Clear? || a.Skip? {
      LeaveNeverBoots(w, s, a);
    } else if a.LsRemote? || a.Clone? || a.SkipClone? {
      UnfoldPoll(w, s, a);
    } else if a.StartBranchRun? || a.StartPull? {
      UnfoldBegin(w, s, a);
    } else {
      UnfoldSweep(w, s, a);
    }
  }

  lemma EndNeverBoots(w: World, s: State, a: Action)
    requires Enabled(w, s, a) && (a.Judge? || a.Attempt? || a.AfterPromotion? || a.Mark?)
    ensures !Step(w, s, a).pc.Boot? && !Step(w, s, a).pc.Resolving?
  {
    hide Step, Enabled, PromoteTarget, G.WasSuperseded, Posted;
    UnfoldEnd(w, s, a);
  }

  lemma LeaveNeverBoots(w: World, s: State, a: Action)
    requires Enabled(w, s, a) && (a.ClearSuperseded? || a.Clear? || a.Skip?)
    ensures !Step(w, s, a).pc.Boot? && !Step(w, s, a).pc.Resolving?
  {
    hide Step, Enabled, AfterBranch, Posted, G.WasSuperseded;
    UnfoldLeave(w, s, a);
    Store.AfterBranchPolls(s, s.pc.run);
  }

  // ----- a commit nothing leads to any more -----

  /** The step brings no branch and no pull request run to the place's commit, and, if the
      place is the rollup, no list of skipped commits mentions it. */
  predicate Avoids(a: Action, p: Place) {
    match a
    case Move(k, sha) => k.BranchKey? ==> Commit(KeyRepo(k), sha) != p.commit
    case StartPull(_, sha, _) => sha != p.commit.sha
    case Clear(skipped) => p.context == Rollup ==> p.commit.sha !in skipped
    case _ => true
  }

  ghost predicate NoHead(heads: map<Key, Head>, c: Commit) {
    forall k: Key | k.BranchKey? && k in heads :: Commit(KeyRepo(k), heads[k].sha) != c
  }

  ghost predicate Away(s: State, p: Place) {
    var c := p.commit;
    && NoHead(s.heads, c)
    && match s.pc
       case Boot(_) => false
       case Resolving(_, _, _) => false
       case Cloned(loop, _, sha, _) => Commit(loop.ref.repo, sha) != c
       case Running(run) => RunCommit(run) != c
       case Superseding(run) => RunCommit(run) != c
       case Promoting(run, _, _) => RunCommit(run) != c
       case Promoted(run) => RunCommit(run) != c
       case Marking(run) => RunCommit(run) != c
       case Clearing(run, _) => RunCommit(run) != c
       case Skipping(_, shas) => p.context == Rollup ==> c.sha !in shas
       case _ => true
  }

  lemma AwayWithin(w: World, s: State, a: Action, p: Place)
    requires Away(s, p) && Enabled(w, s, a) && Avoids(a, p) && Open(s.ledger, p) && p.context != Promote
    requires a.Move? || a.Shut? || a.Expire? || a.Observe? || a.Fire? || a.Gate?
    ensures Away(Step(w, s, a), p) && Open(Step(w, s, a).ledger, p)
  {
    hide Step, Enabled;
    UnfoldWithin(w, s, a);
    hide G.Step, G.Enabled;
  }

  lemma AwaySweeps(w: World, s: State, a: Action, p: Place)
    requires Away(s, p) && Enabled(w, s, a) && Open(s.ledger, p)
    requires a.StartSweep? || a.NextRef? || a.PullsDone? || a.LeaveBranch?
    ensures Away(Step(w, s, a), p) && Open(Step(w, s, a).ledger, p)
  {
    hide Step, Enabled, NoHead;
    UnfoldSweep(w, s, a);
  }

  lemma AwayPolls(w: World, s: State, a: Action, p: Place)
    requires Away(s, p) && Enabled(w, s, a) && Open(s.ledger, p) && (a.LsRemote? || a.Clone? || a.SkipClone?)
    ensures Away(Step(w, s, a), p) && Open(Step(w, s, a).ledger, p)
  {
    hide Step, Enabled;
    UnfoldPoll(w, s, a);
  }

  lemma AwayBegins(w: World, s: State, a: Action, p: Place)
    requires Away(s, p) && Enabled(w, s, a) && Avoids(a, p) && Open(s.ledger, p) && (a.StartBranchRun? || a.StartPull?)
    ensures Away(Step(w, s, a), p) && Open(Step(w, s, a).ledger, p)
  {
    hide Step, Enabled, NoHead;
    UnfoldBegin(w, s, a);
    if a.StartBranchRun? {
      Store.NewRunIsOf(w, s, FromBranch(s.pc.loop, s.pc.tip, s.pc.at), s.pc.sha, a.truth);
    } else {
      Store.NewRunIsOf(w, s, FromPull(s.pc.ref, a.number), a.sha, a.truth);
    }
    hide NewRun;
  }

  lemma AwayJudges(w: World, s: State, p: Place)
    requires Away(s, p) && s.pc.Running? && s.pc.run.gate.pc.Done? && Open(s.ledger, p)
    ensures Away(JudgeStep(w, s), p) && Open(JudgeStep(w, s).ledger, p)
  {
    hide NoHead, PromoteTarget, G.WasSuperseded;
  }

  lemma AwayEnds(w: World, s: State, a: Action, p: Place)
    requires Away(s, p) && Enabled(w, s, a) && Open(s.ledger, p) && p.context != Promote
    requires a.Attempt? || a.AfterPromotion? || a.Mark?
    ensures Away(Step(w, s, a), p) && Open(Step(w, s, a).ledger, p)
  {
    hide Step, Enabled, NoHead;
    UnfoldEnd(w, s, a);
  }

  lemma AwayClears(w: World, s: State, skipped: seq<Sha>, p: Place)
    requires Away(s, p) && s.pc.Clearing? && Avoids(Clear(skipped), p) && Open(s.ledger, p)
    ensures Away(ClearStep(w, s, skipped), p) && Open(ClearStep(w, s, skipped).ledger, p)
  {
    hide NoHead, G.WasSuperseded, RunCommit;
  }

  lemma AwaySkips(s: State, p: Place)
    requires Away(s, p) && s.pc.Skipping? && s.pc.run.origin.FromBranch? && Open(s.ledger, p)
    ensures Away(SkipStep(s), p) && Open(SkipStep(s).ledger, p)
  {
    hide NoHead;
    var after := AfterBranch(s, s.pc.run);
    assert after.Polling? || after.Returned?;
    hide AfterBranch, RunCommit;
  }

  lemma AwayLeaves(w: World, s: State, a: Action, p: Place)
    requires Away(s, p) && Enabled(w, s, a) && Avoids(a, p) && Open(s.ledger, p)
    requires a.ClearSuperseded? || a.Clear? || a.Skip?
    ensures Away(Step(w, s, a), p) && Open(Step(w, s, a).ledger, p)
  {
    hide Step, Enabled, ClearStep, SkipStep, NoHead;
    UnfoldLeave(w, s, a);
    match a
    case Clear(skipped) => AwayClears(w, s, skipped, p);
    case Skip => AwaySkips(s, p);
    case ClearSuperseded =>
  }

  lemma AwayStep(w: World, s: State, a: Action, p: Place)
    requires Away(s, p) && Enabled(w, s, a) && Avoids(a, p) && Open(s.ledger, p) && p.context != Promote
    ensures Away(Step(w, s, a), p) && Open(Step(w, s, a).ledger, p)
  {
    hide Enabled, Step;
    UnfoldBoot(w, s, a);
    assert !a.Reconcile? && !a.Resolve? && !a.BootDone?;
    hide Away, Avoids;
    if a.Move? || a.Shut? || a.Expire? || a.Observe? || a.Fire? || a.Gate? {
      AwayWithin(w, s, a, p);
    } else if a.Judge? {
      UnfoldEnd(w, s, a);
      AwayJudges(w, s, p);
    } else if a.Attempt? || a.AfterPromotion? || a.Mark? {
      AwayEnds(w, s, a, p);
    } else if a.ClearSuperseded? || a.Clear? || a.Skip? {
      AwayLeaves(w, s, a, p);
    } else if a.LsRemote? || a.Clone? || a.SkipClone? {
      AwayPolls(w, s, a, p);
    } else if a.StartBranchRun? || a.StartPull? {
      AwayBegins(w, s, a, p);
    } else {
      AwaySweeps(w, s, a, p);
    }
  }

  /** Once reconciliation is over, a gate context pending on a commit that no branch is at
      stays pending in every state the engine can get to, for as long as no branch and no
      pull request comes to the commit; the rollup, as long as no list of skipped commits
      mentions it either. */
  lemma {:induction false} StrandedForGood(w: World, from: State, schedule: seq<Action>, p: Place)
    requires Away(from, p) && Owed(from, p)
    requires Exec(w, from, schedule).Some? && forall a | a in schedule :: Avoids(a, p)
    ensures Away(Exec(w, from, schedule).value, p) && Open(Exec(w, from, schedule).value.ledger, p)
  {
    hide Away, Avoids, Enabled, Step;
    if schedule != [] {
      var n := |schedule| - 1;
      assert schedule[n] in schedule && forall a | a in schedule[..n] :: a in schedule;
      StrandedForGood(w, from, schedule[..n], p);
      AwayStep(w, Exec(w, from, schedule[..n]).value, schedule[n], p);
    }
  }

  /** Reconciliation clears the marker of an unmoved branch, and then the branch moves. */
  lemma ReconciledThenMoved(w: World, r: State, k: Key, other: Sha)
    requires Starts(r) && Watched(w, k) && k.BranchKey? && k in r.heads && other != r.heads[k].sha
    requires r.inFlight == map[k := r.heads[k].sha]
    ensures Exec(w, r, [Reconcile(k, true, None)] + [BootDone] + [Move(k, other)]) ==
            Some(r.(inFlight := map[], pc := Idle, heads := r.heads[k := Head(other, r.heads[k].moves + 1)]))
  {
    var one := [Reconcile(k, true, None)];
    assert Exec(w, r, []) == Some(r) && [] + one == one;
    hide Exec;
    Extend(w, r, [], one[0]);
    assert r.inFlight - {k} == map[] && r.inFlight.Keys - {k} == {};
    assert Exec(w, r, one) == Some(r.(inFlight := map[], pc := Boot({})));
    hide Watched;
    Extend(w, r, one, BootDone);
    assert Exec(w, r, one + [BootDone]) == Some(r.(inFlight := map[], pc := Idle));
    Extend(w, r, one + [BootDone], Move(k, other));
  }

  lemma MovedAway(r: State, k: Key, other: Sha, p: Place)
    requires k in r.heads && other != r.heads[k].sha && k.BranchKey?
    requires p.commit == Commit(KeyRepo(k), r.heads[k].sha) && NoHead(r.heads - {k}, p.commit)
    ensures Away(r.(inFlight := map[], pc := Idle, heads := r.heads[k := Head(other, r.heads[k].moves + 1)]), p)
  {
    var heads := r.heads[k := Head(other, r.heads[k].moves + 1)];
    forall k': Key | k'.BranchKey? && k' in heads && k' != k
      ensures Commit(KeyRepo(k'), heads[k'].sha) != p.commit
    {
      assert k' in r.heads - {k};
    }
  }

  /** The hypothesis that a waiting tip stays is needed: reconcile clears a marker whose
      commit is still the tip. If that branch moves on before the next poll, and no other
      branch of the repository is at the commit, its statuses stay pending with no marker
      through every sweep, until a branch or a pull request comes to the commit. Marking
      skipped commits helps the rollup only. */
  lemma MoveAfterReconcileLeaks(w: World, r: State, ref: Ref, other: Sha, rest: seq<Action>, p: Place)
    requires Starts(r) && ref in w.refs && BranchKey(ref) in r.heads && other != r.heads[BranchKey(ref)].sha
    requires r.inFlight == map[BranchKey(ref) := r.heads[BranchKey(ref)].sha]
    requires Owed(r, p) && p.commit == Commit(ref.repo, r.heads[BranchKey(ref)].sha)
    requires NoHead(r.heads - {BranchKey(ref)}, p.commit)
    requires forall a | a in rest :: Avoids(a, p)
    ensures var k := BranchKey(ref);
            var moved := Exec(w, r, [Reconcile(k, true, None)] + [BootDone] + [Move(k, other)]);
            && moved.Some? && moved.value.pc.Idle? && moved.value.inFlight == map[]
            && var s := Exec(w, r, [Reconcile(k, true, None)] + [BootDone] + [Move(k, other)] + rest);
            s.Some? ==> Open(s.value.ledger, p) && (s.value.pc.Idle? ==> !MarkedInFlight(s.value.inFlight, p.commit))
  {
    var k := BranchKey(ref);
    var three := [Reconcile(k, true, None)] + [BootDone] + [Move(k, other)];
    ReconciledThenMoved(w, r, k, other);
    var moved := Exec(w, r, three).value;
    MovedAway(r, k, other, p);
    hide Step, Enabled, Exec, Owed, Starts;
    if Exec(w, r, three + rest).Some? {
      ExecConcat(w, r, three, rest);
      StrandedForGood(w, moved, rest, p);
      var s := Exec(w, r, three + rest).value;
      if s.pc.Idle? {
        forall key | key in s.inFlight ensures false { Store.IdleLeavesNoMarker(w, moved, s, key); }
      }
    }
  }
}
