/** What the engine keeps true of the maps it persists. */
module LifecycleStore {
  import opened Common
  import opened Lifecycle
  import G = Gate
  import Safety = LifecycleSafety

  /** The run the engine is busy with. */
  function RunOf(pc: Pc): Option<Run> {
    match pc
    case Running(run) => Some(run)
    case Superseding(run) => Some(run)
    case Promoting(run, _, _) => Some(run)
    case Promoted(run) => Some(run)
    case Marking(run) => Some(run)
    case Clearing(run, _) => Some(run)
    case _ => None
  }

  /** Every branch's last tested commit is seen, so pruning must never drop it. */
  ghost predicate LastIsSeen(s: State) {
    forall ref | ref in s.last :: Commit(ref.repo, s.last[ref]) in s.seen
  }

  /** Every marker is the current run's, or was there when the process started. */
  ghost predicate MarkersKnown(first: State, s: State) {
    forall k | k in s.inFlight ::
      || (k in first.inFlight && s.inFlight[k] == first.inFlight[k])
      || (RunOf(s.pc).Some? && RunKey(RunOf(s.pc).value) == k && s.inFlight[k] == RunOf(s.pc).value.sha)
  }

  ghost predicate StoreInv(first: State, s: State) {
    s.pc.Stopped? || MarkersKnown(first, s)
  }

  predicate SameRun(s: State, s': State) {
    && s'.inFlight == s.inFlight && s'.seen == s.seen && s'.last == s.last
    && (RunOf(s.pc).None? ==> s'.pc == s.pc)
    && (s'.pc.Stopped?
        || (RunOf(s.pc).Some? ==>
              RunOf(s'.pc).Some? && RunKey(RunOf(s'.pc).value) == RunKey(RunOf(s.pc).value)
              && RunOf(s'.pc).value.sha == RunOf(s.pc).value.sha))
  }

  predicate Within(a: Action) { a.Move? || a.Shut? || a.Observe? || a.Fire? || a.Gate? }

  predicate Ending(a: Action) { a.Judge? || a.Attempt? || a.AfterPromotion? }

  /** Steps within a run leave its origin, its commit and the maps alone. */
  lemma RunGoesOn(w: World, s: State, a: Action)
    requires Enabled(w, s, a) && Within(a)
    ensures SameRun(s, Step(w, s, a))
  {
    hide Step, Enabled, G.Step, G.Enabled, Posted, RunCommit;
    UnfoldWithin(w, s, a);
  }

  lemma JudgedRun(w: World, s: State)
    requires s.pc.Running? && s.pc.run.gate.pc.Done?
    ensures SameRun(s, JudgeStep(w, s))
  {
    hide Posted, PromoteTarget, RunCommit, G.WasSuperseded;
  }

  lemma RunEnds(w: World, s: State, a: Action)
    requires Enabled(w, s, a) && Ending(a)
    ensures SameRun(s, Step(w, s, a))
  {
    hide Step, Enabled, Posted, PromoteTarget, RunCommit, G.WasSuperseded, JudgeStep;
    UnfoldEnd(w, s, a);
    if a.Judge? { JudgedRun(w, s); }
  }

  lemma SameRunSameMarkers(first: State, s: State, s': State)
    requires StoreInv(first, s) && SameRun(s, s') && (s.pc.Stopped? ==> s'.pc.Stopped?)
    ensures StoreInv(first, s')
  {
    if !s'.pc.Stopped? {
      forall k | k in s'.inFlight && !(k in first.inFlight && s'.inFlight[k] == first.inFlight[k])
        ensures RunOf(s'.pc).Some? && RunKey(RunOf(s'.pc).value) == k && s'.inFlight[k] == RunOf(s'.pc).value.sha
      {
        assert k in s.inFlight;
      }
    }
  }

  lemma StoppedStays(w: World, s: State, a: Action)
    requires Enabled(w, s, a) && s.pc.Stopped?
    ensures Step(w, s, a).pc.Stopped?
  {
    hide Step, Enabled, G.Step, G.Enabled;
    if a.Move? || a.Shut? || a.Expire? || a.Observe? || a.Fire? || a.Gate? {
      UnfoldWithin(w, s, a);
    } else if a.Reconcile? || a.Resolve? || a.BootDone? {
      UnfoldBoot(w, s, a);
    } else if a.Judge? || a.Attempt? || a.AfterPromotion? || a.Mark? {
      UnfoldEnd(w, s, a);
    } else if a.Clear? || a.Skip? || a.ClearSuperseded? {
      UnfoldLeave(w, s, a);
    } else if a.SkipClone? || a.LsRemote? || a.Clone? {
      UnfoldPoll(w, s, a);
    } else if a.StartBranchRun? || a.StartPull? {
      UnfoldBegin(w, s, a);
    } else {
      UnfoldSweep(w, s, a);
    }
  }

  lemma BeginMarks(w: World, first: State, s: State, a: Action)
    requires StoreInv(first, s) && Enabled(w, s, a) && (a.StartBranchRun? || a.StartPull?)
    ensures StoreInv(first, Step(w, s, a))
  {
    hide Step, Enabled;
    UnfoldBegin(w, s, a);
    hide NewRun;
  }

  lemma ReconcileStepMarks(w: World, first: State, s: State, a: Action)
    requires StoreInv(first, s) && s.pc.Boot? && a.Reconcile? && a.key in s.inFlight
    requires a.key.BranchKey? && a.lsOk ==> a.key in s.heads
    ensures StoreInv(first, ReconcileStep(w, s, a.key, a.lsOk, a.listed))
  {
    hide Watched;
    assert MarkersKnown(first, s);
    var s' := ReconcileStep(w, s, a.key, a.lsOk, a.listed);
    assert RunOf(s'.pc).None? && forall k | k in s'.inFlight :: k in s.inFlight && s'.inFlight[k] == s.inFlight[k];
    hide ReconcileStep, RunOf;
  }

  lemma ReconcileMarks(w: World, first: State, s: State, a: Action)
    requires StoreInv(first, s) && Enabled(w, s, a) && (a.Reconcile? || a.Resolve? || a.BootDone?)
    ensures StoreInv(first, Step(w, s, a))
  {
    hide Step, Enabled, Watched;
    UnfoldBoot(w, s, a);
    if a.Reconcile? { ReconcileStepMarks(w, first, s, a); }
    hide ReconcileStep;
  }

  lemma ClearingMarks(w: World, first: State, s: State, a: Action)
    requires StoreInv(first, s) && Enabled(w, s, a) && (a.ClearSuperseded? || a.Clear?)
    ensures StoreInv(first, Step(w, s, a))
  {
    hide Step, Enabled, AfterBranch;
    UnfoldLeave(w, s, a);
    AfterBranchBusy(s, s.pc.run);
  }

  lemma AfterBranchBusy(s: State, run: Run)
    ensures run.origin.FromBranch? ==> RunOf(AfterBranch(s, run)).None?
  {
  }

  lemma MarkMarks(w: World, first: State, s: State)
    requires StoreInv(first, s) && s.pc.Marking?
    ensures StoreInv(first, MarkStep(s))
  {
    var s' := MarkStep(s);
    assert RunOf(s'.pc) == RunOf(s.pc) && s'.inFlight == s.inFlight && s'.pc.Clearing?;
    hide MarkStep, RunOf, RunKey;
  }

  /** The engine is between runs before and after, with the same markers. */
  predicate BetweenRuns(s: State, s': State) {
    && s'.inFlight == s.inFlight && RunOf(s.pc).None? && RunOf(s'.pc).None?
    && !s.pc.Stopped? && !s'.pc.Stopped? && !s'.pc.Boot? && !s'.pc.Resolving?
  }

  lemma LsRemoteIsBetweenRuns(s: State, ok: bool)
    requires s.pc.Polling? && (ok ==> BranchKey(s.pc.loop.ref) in s.heads)
    ensures BetweenRuns(s, LsRemoteStep(s, ok))
  {
  }

  lemma CloneIsBetweenRuns(s: State, ok: bool)
    requires s.pc.Sampled? && (ok ==> BranchKey(s.pc.loop.ref) in s.heads)
    ensures BetweenRuns(s, CloneStep(s, ok))
  {
  }

  lemma PollIsBetweenRuns(w: World, s: State, a: Action)
    requires Enabled(w, s, a) && (a.LsRemote? || a.Clone? || a.SkipClone?)
    ensures BetweenRuns(s, Step(w, s, a))
  {
    hide Step, Enabled, LsRemoteStep, CloneStep;
    UnfoldPoll(w, s, a);
    if a.LsRemote? { LsRemoteIsBetweenRuns(s, a.ok); }
    if a.Clone? { CloneIsBetweenRuns(s, a.ok); }
  }

  lemma SweepIsBetweenRuns(w: World, s: State, a: Action)
    requires Enabled(w, s, a) && (a.StartSweep? || a.NextRef? || a.PullsDone? || a.LeaveBranch?)
    ensures BetweenRuns(s, Step(w, s, a))
  {
    hide Step, Enabled;
    UnfoldSweep(w, s, a);
  }

  lemma BetweenRunsMarks(first: State, s: State, s': State)
    requires StoreInv(first, s) && BetweenRuns(s, s')
    ensures StoreInv(first, s')
  {
  }

  lemma SkipMarks(first: State, s: State)
    requires StoreInv(first, s) && s.pc.Skipping? && s.pc.run.origin.FromBranch?
    ensures StoreInv(first, SkipStep(s))
  {
    hide Posted, AfterBranch;
    AfterBranchBusy(s, s.pc.run);
  }

  lemma ExpireMarks(first: State, s: State, gone: set<Commit>)
    requires StoreInv(first, s)
    ensures StoreInv(first, s.(seen := s.seen - gone))
  {
  }

  lemma MarkersStep(w: World, first: State, s: State, a: Action)
    requires StoreInv(first, s) && Enabled(w, s, a)
    ensures StoreInv(first, Step(w, s, a))
  {
    hide Step, Enabled, StoreInv, SameRun;
    if a.Expire? {
      UnfoldWithin(w, s, a);
      ExpireMarks(first, s, a.gone);
    } else if Within(a) {
      RunGoesOn(w, s, a);
      if s.pc.Stopped? { StoppedStays(w, s, a); }
      SameRunSameMarkers(first, s, Step(w, s, a));
    } else if Ending(a) {
      RunEnds(w, s, a);
      if s.pc.Stopped? { StoppedStays(w, s, a); }
      SameRunSameMarkers(first, s, Step(w, s, a));
    } else if a.StartBranchRun? || a.StartPull? {
      BeginMarks(w, first, s, a);
    } else if a.Reconcile? || a.Resolve? || a.BootDone? {
      ReconcileMarks(w, first, s, a);
    } else if a.ClearSuperseded? || a.Clear? {
      ClearingMarks(w, first, s, a);
    } else if a.Mark? {
      UnfoldEnd(w, s, a);
      MarkMarks(w, first, s);
    } else if a.Skip? {
      UnfoldLeave(w, s, a);
      SkipMarks(first, s);
    } else if a.LsRemote? || a.Clone? || a.SkipClone? {
      PollIsBetweenRuns(w, s, a);
      BetweenRunsMarks(first, s, Step(w, s, a));
    } else {
      SweepIsBetweenRuns(w, s, a);
      BetweenRunsMarks(first, s, Step(w, s, a));
    }
  }

  lemma MarkKeepsLast(s: State)
    requires LastIsSeen(s) && s.pc.Marking?
    ensures LastIsSeen(MarkStep(s))
  {
    var s', run := MarkStep(s), s.pc.run;
    assert s.seen <= s'.seen && RunCommit(run) in s'.seen;
    assert s'.last == s.last || (run.origin.FromBranch? && s'.last == s.last[run.origin.loop.ref := run.sha]);
    hide MarkStep;
  }

  lemma LeavingKeepsLast(w: World, s: State, a: Action)
    requires Enabled(w, s, a) && (a.ClearSuperseded? || a.Clear? || a.Skip?)
    ensures Step(w, s, a).last == s.last && Step(w, s, a).seen == s.seen
  {
    hide Step, Enabled, AfterBranch, Posted;
    UnfoldLeave(w, s, a);
  }

  lemma IdleKeepsLast(w: World, s: State, a: Action)
    requires Enabled(w, s, a)
    requires a.Reconcile? || a.Resolve? || a.BootDone? || a.StartBranchRun? || a.StartPull? || a.StartSweep?
             || a.NextRef? || a.PullsDone? || a.LeaveBranch?
    ensures Step(w, s, a).last == s.last && Step(w, s, a).seen == s.seen
  {
    hide Step, Enabled, NewRun, Watched;
    if a.Reconcile? || a.Resolve? || a.BootDone? {
      UnfoldBoot(w, s, a);
    } else if a.StartBranchRun? || a.StartPull? {
      UnfoldBegin(w, s, a);
    } else {
      UnfoldSweep(w, s, a);
    }
  }

  /** Apart from marking and pruning, no step loses a seen commit or touches `last`. */
  lemma LastUntouched(w: World, s: State, a: Action)
    requires Enabled(w, s, a) && !Within(a) && !Ending(a) && !a.Mark? && !a.Expire?
    ensures Step(w, s, a).last == s.last && s.seen <= Step(w, s, a).seen
  {
    hide Step, Enabled, NewRun, Posted, Watched;
    if a.SkipClone? || a.LsRemote? || a.Clone? {
      UnfoldPoll(w, s, a);
    } else if a.Clear? || a.Skip? || a.ClearSuperseded? {
      LeavingKeepsLast(w, s, a);
    } else {
      IdleKeepsLast(w, s, a);
    }
  }

  lemma LastStep(w: World, s: State, a: Action)
    requires LastIsSeen(s) && Enabled(w, s, a)
    ensures LastIsSeen(Step(w, s, a))
  {
    hide Step, Enabled;
    if a.Mark? {
      UnfoldEnd(w, s, a);
      MarkKeepsLast(s);
    } else if a.Expire? {
      UnfoldWithin(w, s, a);
    } else if Within(a) {
      RunGoesOn(w, s, a);
    } else if Ending(a) {
      RunEnds(w, s, a);
    } else {
      LastUntouched(w, s, a);
    }
  }

  lemma {:induction false} MarkersRun(w: World, first: State, schedule: seq<Action>)
    requires Exec(w, first, schedule).Some?
    ensures StoreInv(first, Exec(w, first, schedule).value)
  {
    if schedule != [] {
      var n := |schedule| - 1;
      MarkersRun(w, first, schedule[..n]);
      MarkersStep(w, first, Exec(w, first, schedule[..n]).value, schedule[n]);
    }
  }

  lemma {:induction false} LastRun(w: World, first: State, schedule: seq<Action>)
    requires LastIsSeen(first) && Exec(w, first, schedule).Some?
    ensures LastIsSeen(Exec(w, first, schedule).value)
  {
    if schedule != [] {
      var n := |schedule| - 1;
      LastRun(w, first, schedule[..n]);
      LastStep(w, Exec(w, first, schedule[..n]).value, schedule[n]);
    }
  }

  /** The last tested commit of every branch stays processed in every reachable state. */
  lemma LastTestedStaysSeen(w: World, first: State, s: State, ref: Ref)
    requires LastIsSeen(first) && Reachable(w, first, s) && ref in s.last
    ensures Commit(ref.repo, s.last[ref]) in s.seen
  {
    var schedule :| Exec(w, first, schedule) == Some(s);
    LastRun(w, first, schedule);
  }

  /** Between two refs no marker is left but those of an earlier process that
      reconciliation had to keep. */
  lemma IdleLeavesNoMarker(w: World, first: State, s: State, k: Key)
    requires Reachable(w, first, s) && s.pc.Idle? && k in s.inFlight
    ensures k in first.inFlight && s.inFlight[k] == first.inFlight[k]
  {
    var schedule :| Exec(w, first, schedule) == Some(s);
    MarkersRun(w, first, schedule);
  }

  // ----- markers that reconciliation kept -----

  /** The step begins a run under this key. */
  predicate Begins(s: State, a: Action, k: Key) {
    || (a.StartBranchRun? && s.pc.Cloned? && k == BranchKey(s.pc.loop.ref))
    || (a.StartPull? && s.pc.Pulls? && k == PullKey(s.pc.ref.repo, a.number))
  }

  ghost predicate Begun(w: World, from: State, schedule: seq<Action>, k: Key) {
    schedule != [] &&
    var n := |schedule| - 1;
    (Begun(w, from, schedule[..n], k)
     || (Exec(w, from, schedule[..n]).Some? && Begins(Exec(w, from, schedule[..n]).value, schedule[n], k)))
  }

  /** What has become of a marker `sha` under key k that reconciliation kept. */
  ghost predicate MarkerFate(s: State, k: Key, sha: Sha, begun: bool) {
    var mine := RunOf(s.pc).Some? && RunKey(RunOf(s.pc).value) == k;
    && !s.pc.Boot? && !s.pc.Resolving?
    && if !begun then k in s.inFlight && s.inFlight[k] == sha && !mine
       else
         s.pc.Stopped?
         || if mine then k in s.inFlight && s.inFlight[k] == RunOf(s.pc).value.sha else k !in s.inFlight
  }

  lemma FateWithin(s: State, s': State, k: Key, sha: Sha, begun: bool)
    requires MarkerFate(s, k, sha, begun) && SameRun(s, s')
    ensures MarkerFate(s', k, sha, begun)
  {
  }

  lemma FateBegins(w: World, s: State, a: Action, k: Key, sha: Sha, begun: bool)
    requires MarkerFate(s, k, sha, begun) && Enabled(w, s, a) && (a.StartBranchRun? || a.StartPull?)
    ensures MarkerFate(Step(w, s, a), k, sha, begun || Begins(s, a, k))
  {
    hide Step, Enabled;
    UnfoldBegin(w, s, a);
    if a.StartBranchRun? {
      NewRunIsOf(w, s, FromBranch(s.pc.loop, s.pc.tip, s.pc.at), s.pc.sha, a.truth);
    } else {
      NewRunIsOf(w, s, FromPull(s.pc.ref, a.number), a.sha, a.truth);
    }
    hide NewRun;
  }

  lemma FateClears(w: World, s: State, skipped: seq<Sha>, k: Key, sha: Sha, begun: bool)
    requires MarkerFate(s, k, sha, begun) && s.pc.Clearing?
    ensures MarkerFate(ClearStep(w, s, skipped), k, sha, begun)
  {
    hide AfterBranch;
    AfterBranchPolls(s, s.pc.run);
  }

  lemma FateClearsSuperseded(s: State, k: Key, sha: Sha, begun: bool)
    requires MarkerFate(s, k, sha, begun) && s.pc.Superseding?
    ensures MarkerFate(ClearSupersededStep(s), k, sha, begun)
  {
  }

  lemma FateSkips(s: State, k: Key, sha: Sha, begun: bool)
    requires MarkerFate(s, k, sha, begun) && s.pc.Skipping? && s.pc.run.origin.FromBranch?
    ensures MarkerFate(SkipStep(s), k, sha, begun)
  {
    hide AfterBranch, Posted;
    AfterBranchPolls(s, s.pc.run);
  }

  lemma AfterBranchPolls(s: State, run: Run)
    ensures run.origin.FromBranch? ==> AfterBranch(s, run).Polling? || AfterBranch(s, run).Returned?
  {
  }

  lemma FateElsewhere(s: State, s': State, k: Key, sha: Sha, begun: bool)
    requires MarkerFate(s, k, sha, begun) && BetweenRuns(s, s')
    ensures MarkerFate(s', k, sha, begun)
  {
  }

  lemma FateExpires(s: State, gone: set<Commit>, k: Key, sha: Sha, begun: bool)
    requires MarkerFate(s, k, sha, begun)
    ensures MarkerFate(s.(seen := s.seen - gone), k, sha, begun)
  {
  }

  lemma FateMarks(s: State, k: Key, sha: Sha, begun: bool)
    requires MarkerFate(s, k, sha, begun) && s.pc.Marking?
    ensures MarkerFate(MarkStep(s), k, sha, begun)
  {
    hide RunCommit;
  }

  lemma {:induction false} FateRun(w: World, from: State, schedule: seq<Action>, k: Key)
    requires from.pc.Idle? && k in from.inFlight && Exec(w, from, schedule).Some?
    ensures MarkerFate(Exec(w, from, schedule).value, k, from.inFlight[k], Begun(w, from, schedule, k))
  {
    if schedule != [] {
      var n := |schedule| - 1;
      var s, a := Exec(w, from, schedule[..n]).value, schedule[n];
      var sha, begun := from.inFlight[k], Begun(w, from, schedule[..n], k);
      FateRun(w, from, schedule[..n], k);
      FateStep(w, s, a, k, sha, begun);
    }
  }

  lemma FateEnds(w: World, s: State, a: Action, k: Key, sha: Sha, begun: bool)
    requires MarkerFate(s, k, sha, begun) && Enabled(w, s, a) && (Within(a) || Ending(a) || a.Mark?)
    ensures MarkerFate(Step(w, s, a), k, sha, begun)
  {
    hide Step, Enabled, MarkerFate, SameRun;
    if a.Mark? {
      UnfoldEnd(w, s, a);
      FateMarks(s, k, sha, begun);
    } else {
      if Within(a) { RunGoesOn(w, s, a); } else { RunEnds(w, s, a); }
      FateWithin(s, Step(w, s, a), k, sha, begun);
    }
  }

  lemma FateLeaves(w: World, s: State, a: Action, k: Key, sha: Sha, begun: bool)
    requires MarkerFate(s, k, sha, begun) && Enabled(w, s, a) && (a.ClearSuperseded? || a.Clear? || a.Skip?)
    ensures MarkerFate(Step(w, s, a), k, sha, begun)
  {
    hide Step, Enabled, MarkerFate, ClearStep, ClearSupersededStep, SkipStep;
    UnfoldLeave(w, s, a);
    match a
    case Clear(skipped) => FateClears(w, s, skipped, k, sha, begun);
    case ClearSuperseded => FateClearsSuperseded(s, k, sha, begun);
    case Skip => FateSkips(s, k, sha, begun);
  }

  lemma FateSweeps(w: World, s: State, a: Action, k: Key, sha: Sha, begun: bool)
    requires MarkerFate(s, k, sha, begun) && Enabled(w, s, a)
    requires a.LsRemote? || a.Clone? || a.SkipClone? || a.StartSweep? || a.NextRef? || a.PullsDone? || a.LeaveBranch?
    ensures MarkerFate(Step(w, s, a), k, sha, begun)
  {
    hide Step, Enabled, MarkerFate, BetweenRuns;
    if a.LsRemote? || a.Clone? || a.SkipClone? {
      PollIsBetweenRuns(w, s, a);
    } else {
      SweepIsBetweenRuns(w, s, a);
    }
    FateElsewhere(s, Step(w, s, a), k, sha, begun);
  }

  lemma FateStep(w: World, s: State, a: Action, k: Key, sha: Sha, begun: bool)
    requires MarkerFate(s, k, sha, begun) && Enabled(w, s, a)
    ensures MarkerFate(Step(w, s, a), k, sha, begun || Begins(s, a, k))
  {
    hide Step, Enabled;
    NotBooting(w, s, a, k, sha, begun);
    hide MarkerFate;
    if Within(a) || Ending(a) || a.Mark? {
      FateEnds(w, s, a, k, sha, begun);
    } else if a.StartBranchRun? || a.StartPull? {
      FateBegins(w, s, a, k, sha, begun);
    } else if a.ClearSuperseded? || a.Clear? || a.Skip? {
      FateLeaves(w, s, a, k, sha, begun);
    } else if a.Expire? {
      UnfoldWithin(w, s, a);
      FateExpires(s, a.gone, k, sha, begun);
    } else {
      FateSweeps(w, s, a, k, sha, begun);
    }
  }

  lemma NotBooting(w: World, s: State, a: Action, k: Key, sha: Sha, begun: bool)
    requires MarkerFate(s, k, sha, begun) && Enabled(w, s, a)
    ensures !a.Reconcile? && !a.Resolve? && !a.BootDone?
  {
    hide Step, Enabled;
    UnfoldBoot(w, s, a);
  }

  /** Exactly when a marker that reconciliation kept is still there for the next start:
      as long as no run begins under its key. From then on the key names at most the
      run that is in progress, and between two refs it is gone. */
  lemma KeptMarkerLastsExactly(w: World, from: State, schedule: seq<Action>, k: Key)
    requires from.pc.Idle? && k in from.inFlight && Exec(w, from, schedule).Some?
    ensures var s := Exec(w, from, schedule).value;
            && (!Begun(w, from, schedule, k) ==> k in s.inFlight && s.inFlight[k] == from.inFlight[k])
            && (Begun(w, from, schedule, k) && !s.pc.Stopped? && k in s.inFlight ==>
                  RunOf(s.pc).Some? && k == RunKey(RunOf(s.pc).value) && s.inFlight[k] == RunOf(s.pc).value.sha)
            && (s.pc.Idle? ==> (k in s.inFlight <==> !Begun(w, from, schedule, k)))
  {
    FateRun(w, from, schedule, k);
  }

  /** Listing fails for a commit its branch has moved past; the marker is kept, and the
      next sweep's run of the new tip replaces it, leaving the old commit's statuses
      pending with no marker. */
  lemma KeptMarkerIsOverwritten(w: World, r: State, ref: Ref, p: Place, truth: seq<bool>)
    requires Starts(r) && w.refs == [ref] && BranchKey(ref) in r.heads && r.inFlight.Keys == {BranchKey(ref)}
    requires p.commit == Commit(ref.repo, r.inFlight[BranchKey(ref)]) && p in r.ledger && r.ledger[p] == Pending
    requires var tip := Commit(ref.repo, r.heads[BranchKey(ref)].sha);
             p.commit != tip && tip !in r.seen && FitsTruth(w, tip, truth)
    ensures var k := BranchKey(ref);
            var s := Exec(w, r, [Reconcile(k, true, None)] + [BootDone] + [StartSweep] + [NextRef] + [LsRemote(true)]
                                + [Clone(true)] + [StartBranchRun(truth)]);
            && s.Some? && s.value.inFlight.Keys == {k} && s.value.inFlight[k] == r.heads[k].sha
            && s.value.ledger == r.ledger && !Safety.MarkedInFlight(s.value.inFlight, p.commit)
  {
    var k := BranchKey(ref);
    hide NewRun;
    var head := r.heads[k];
    var loop := Loop(ref, 1, head.moves);
    var a6 := [Reconcile(k, true, None)] + [BootDone] + [StartSweep] + [NextRef] + [LsRemote(true)] + [Clone(true)];
    KeptAndCloned(w, r, ref);
    Extend(w, r, a6, StartBranchRun(truth));
    NewRunIsOf(w, Exec(w, r, a6).value, FromBranch(loop, head.sha, head.moves), head.sha, truth);
    hide Exec, Enabled;
  }

  lemma KeptAndCloned(w: World, r: State, ref: Ref)
    requires Starts(r) && w.refs == [ref] && BranchKey(ref) in r.heads && r.inFlight.Keys == {BranchKey(ref)}
    requires r.inFlight[BranchKey(ref)] != r.heads[BranchKey(ref)].sha
    requires Commit(ref.repo, r.heads[BranchKey(ref)].sha) !in r.seen
    ensures var k := BranchKey(ref);
            var a6 := [Reconcile(k, true, None)] + [BootDone] +
                      [StartSweep] + [NextRef] + [LsRemote(true)] + [Clone(true)];
            var head := r.heads[k];
            var pc := Cloned(Loop(ref, 1, head.moves), head.sha, head.sha, head.moves);
            Exec(w, r, a6) == Some(r.(pc := pc, rest := []))
  {
    var k := BranchKey(ref);
    var head := r.heads[k];
    var a4 := [Reconcile(k, true, None)] + [BootDone] + [StartSweep] + [NextRef];
    var loop := Loop(ref, 1, head.moves);
    KeptAndPolled(w, r, ref);
    hide Exec;
    Extend(w, r, a4, LsRemote(true));
    assert Exec(w, r, a4 + [LsRemote(true)]) == Some(r.(pc := Sampled(loop, head.sha), rest := []));
    Extend(w, r, a4 + [LsRemote(true)], Clone(true));
  }

  lemma KeptAndBooted(w: World, r: State, ref: Ref)
    requires Starts(r) && w.refs == [ref] && BranchKey(ref) in r.heads && r.inFlight.Keys == {BranchKey(ref)}
    requires r.inFlight[BranchKey(ref)] != r.heads[BranchKey(ref)].sha
    ensures Exec(w, r, [Reconcile(BranchKey(ref), true, None)] + [BootDone]) == Some(r.(pc := Idle))
  {
    var k := BranchKey(ref);
    assert w.refs[0] == ref && Watched(w, k);
    var a1 := [Reconcile(k, true, None)];
    assert Exec(w, r, []) == Some(r) && [] + a1 == a1;
    hide Exec;
    Extend(w, r, [], a1[0]);
    assert r.inFlight.Keys - {k} == {};
    assert Exec(w, r, a1) == Some(r.(pc := Boot({})));
    hide Watched;
    Extend(w, r, a1, BootDone);
  }

  lemma KeptAndPolled(w: World, r: State, ref: Ref)
    requires Starts(r) && w.refs == [ref] && BranchKey(ref) in r.heads && r.inFlight.Keys == {BranchKey(ref)}
    requires r.inFlight[BranchKey(ref)] != r.heads[BranchKey(ref)].sha
    ensures var k := BranchKey(ref);
            Exec(w, r, [Reconcile(k, true, None)] + [BootDone] + [StartSweep] + [NextRef]) ==
            Some(r.(pc := Polling(Loop(ref, 1, r.heads[k].moves)), rest := []))
  {
    var a1 := [Reconcile(BranchKey(ref), true, None)];
    KeptAndBooted(w, r, ref);
    hide Exec, Starts;
    Extend(w, r, a1 + [BootDone], StartSweep);
    assert Exec(w, r, a1 + [BootDone] + [StartSweep]) == Some(r.(pc := Idle, rest := [ref]));
    Extend(w, r, a1 + [BootDone] + [StartSweep], NextRef);
    assert [ref][1..] == [];
  }

  lemma NewRunIsOf(w: World, s: State, o: Origin, sha: Sha, truth: seq<bool>)
    ensures NewRun(w, s, o, sha, truth).origin == o && NewRun(w, s, o, sha, truth).sha == sha
  {
  }
}
