/** Termination and quiescence of processBranch's short-circuit loop. */
module LifecycleLoop {
  import opened Common
  import opened Lifecycle
  import G = Gate
  import Safety = LifecycleSafety

  /** The loop has gone round once more than the head has moved by the time `moves`, at most. */
  predicate Bounded(s: State, loop: Loop, moves: nat) {
    && loop.since <= moves <= Moves(s.heads, BranchKey(loop.ref))
    && loop.iteration <= 1 + moves - loop.since
  }

  predicate RunBounded(s: State, run: Run) {
    match run.origin
    case FromPull(_, _) => true
    case FromBranch(loop, _, at) =>
      && Bounded(s, loop, at) && BranchKey(loop.ref) in s.heads
      && (run.watch.Some? ==> at < s.heads[BranchKey(loop.ref)].moves)
      && (s.heads[BranchKey(loop.ref)].moves == at ==> s.heads[BranchKey(loop.ref)].sha == run.sha)
      && (G.WasSuperseded(run.gate) ==> run.watch.Some?)
  }

  predicate LoopInv(s: State) {
    match s.pc
    case Polling(loop) => Bounded(s, loop, Moves(s.heads, BranchKey(loop.ref)))
    case Sampled(loop, _) => Bounded(s, loop, Moves(s.heads, BranchKey(loop.ref)))
    case Cloned(loop, _, sha, at) =>
      && Bounded(s, loop, at) && BranchKey(loop.ref) in s.heads
      && (s.heads[BranchKey(loop.ref)].moves == at ==> s.heads[BranchKey(loop.ref)].sha == sha)
    case Running(run) => RunBounded(s, run)
    case Superseding(run) => RunBounded(s, run) && G.WasSuperseded(run.gate)
    case Promoting(run, _, _) => RunBounded(s, run)
    case Promoted(run) => RunBounded(s, run)
    case Marking(run) => RunBounded(s, run)
    case Clearing(run, _) => RunBounded(s, run)
    case Skipping(run, _) => RunBounded(s, run)
    case Returned(loop, _) => Bounded(s, loop, Moves(s.heads, BranchKey(loop.ref)))
    case _ => true
  }

  lemma MoveKeepsBounds(s: State, k: Key, sha: Sha)
    ensures var s' := s.(heads := s.heads[k := Head(sha, Moves(s.heads, k) + 1)]);
            && (forall loop: Loop :: Bounded(s, loop, Moves(s.heads, BranchKey(loop.ref))) ==>
                  Bounded(s', loop, Moves(s'.heads, BranchKey(loop.ref))))
            && (forall run: Run :: RunBounded(s, run) ==> RunBounded(s', run))
  {
  }

  lemma MoveKeepsClone(s: State, k: Key, sha: Sha)
    requires LoopInv(s) && s.pc.Cloned?
    ensures LoopInv(s.(heads := s.heads[k := Head(sha, Moves(s.heads, k) + 1)]))
  {
  }

  lemma MoveKeepsLoop(w: World, s: State, a: Action)
    requires LoopInv(s) && Enabled(w, s, a) && a.Move?
    ensures LoopInv(Step(w, s, a))
  {
    hide Step, Enabled, LoopInv;
    UnfoldWithin(w, s, a);
    if s.pc.Cloned? {
      MoveKeepsClone(s, a.key, a.sha);
    } else {
      MoveKeepsOthers(s, a.key, a.sha);
    }
  }

  lemma MoveKeepsOthers(s: State, k: Key, sha: Sha)
    requires LoopInv(s) && !s.pc.Cloned?
    ensures LoopInv(s.(heads := s.heads[k := Head(sha, Moves(s.heads, k) + 1)]))
  {
    MoveKeepsBounds(s, k, sha);
    hide RunBounded, Bounded, Moves;
  }

  lemma RunStepKeepsLoop(w: World, s: State, a: Action)
    requires LoopInv(s) && Enabled(w, s, a)
    requires a.Shut? || a.Observe? || a.Fire? || a.Gate?
    ensures LoopInv(Step(w, s, a))
  {
    hide Step, Enabled;
    UnfoldWithin(w, s, a);
    hide G.Step, G.Enabled;
    if a.Gate? { Safety.GateKeepsCause(s.pc.run.reading, s.pc.run.gate, a.a); }
  }

  lemma PollStepKeepsLoop(w: World, s: State, a: Action)
    requires LoopInv(s) && Enabled(w, s, a)
    requires a.NextRef? || a.LsRemote?
    ensures LoopInv(Step(w, s, a))
  {
    hide Step, Enabled, LsRemoteStep, LoopInv;
    if a.NextRef? {
      UnfoldSweep(w, s, a);
      NextRefKeepsLoop(s);
    } else {
      UnfoldPoll(w, s, a);
      LsRemoteKeepsLoop(s, a.ok);
    }
  }

  lemma NextRefKeepsLoop(s: State)
    requires s.pc.Idle? && s.rest != []
    ensures LoopInv(s.(pc := Polling(Loop(s.rest[0], 1, Moves(s.heads, BranchKey(s.rest[0])))), rest := s.rest[1..]))
  {
  }

  lemma LsRemoteKeepsLoop(s: State, ok: bool)
    requires LoopInv(s) && s.pc.Polling? && (ok ==> BranchKey(s.pc.loop.ref) in s.heads)
    ensures LoopInv(LsRemoteStep(s, ok))
  {
    hide RunBounded;
  }

  lemma CloneKeepsLoop(w: World, s: State, a: Action)
    requires LoopInv(s) && Enabled(w, s, a) && (a.Clone? || a.SkipClone?)
    ensures LoopInv(Step(w, s, a))
  {
    hide Step, Enabled;
    UnfoldPoll(w, s, a);
    hide RunBounded;
  }

  lemma PullKeepsLoop(w: World, s: State, number: nat, sha: Sha, truth: seq<bool>)
    requires LoopInv(s) && Enabled(w, s, StartPull(number, sha, truth))
    ensures LoopInv(Step(w, s, StartPull(number, sha, truth)))
  {
    hide NewRun, Bounded;
    BegunRun(w, s, FromPull(s.pc.ref, number), sha, truth);
  }

  lemma BeginKeepsLoop(w: World, s: State, truth: seq<bool>)
    requires LoopInv(s) && Enabled(w, s, StartBranchRun(truth))
    ensures LoopInv(Step(w, s, StartBranchRun(truth)))
  {
    hide NewRun;
    BegunRun(w, s, FromBranch(s.pc.loop, s.pc.tip, s.pc.at), s.pc.sha, truth);
  }

  lemma BegunRun(w: World, s: State, o: Origin, sha: Sha, truth: seq<bool>)
    ensures var run := NewRun(w, s, o, sha, truth);
            run.origin == o && run.sha == sha && run.watch == None && !G.WasSuperseded(run.gate)
  {
    InitCause(ReadingOf(w, Commit(RefOf(o).repo, sha), truth));
  }

  lemma JudgeKeepsLoop(w: World, s: State)
    requires LoopInv(s) && s.pc.Running? && s.pc.run.gate.pc.Done?
    ensures LoopInv(JudgeStep(w, s))
  {
    hide RunBounded, Posted, PromoteTarget, RunCommit;
    var s', run := JudgeStep(w, s), s.pc.run;
    SameBound(s, run, s', run);
    SameBound(s, run, s', PostOn(run, G.Post(Rollup, Error)));
    SameBound(s, run, s', PostOn(run, G.Post(Promote, Pending)));
  }

  /** The bound depends on the heads and on where the run comes from only. */
  lemma SameBound(s: State, run: Run, s': State, run': Run)
    requires RunBounded(s, run) && s'.heads == s.heads
    requires run'.origin == run.origin && run'.watch == run.watch && run'.gate == run.gate && run'.sha == run.sha
    ensures RunBounded(s', run')
  {
  }

  lemma AttemptKeepsLoop(w: World, s: State, ok: bool)
    requires LoopInv(s) && s.pc.Promoting?
    ensures LoopInv(AttemptStep(s, ok))
  {
  }

  /** A superseded run goes round again only after its branch has moved past its clone. */
  lemma LeavingKeepsLoop(w: World, s: State, skipped: seq<Sha>)
    requires LoopInv(s)
    ensures s.pc.Superseding? ==> LoopInv(ClearSupersededStep(s))
    ensures s.pc.Clearing? ==> LoopInv(ClearStep(w, s, skipped))
  {
  }

  lemma AfterBranchKeepsLoop(s: State, run: Run)
    requires RunBounded(s, run) && run.origin.FromBranch?
    ensures LoopInv(s.(pc := AfterBranch(s, run)))
  {
  }

  lemma SkipKeepsLoop(s: State)
    requires LoopInv(s) && s.pc.Skipping? && s.pc.run.origin.FromBranch?
    ensures LoopInv(SkipStep(s))
  {
    var s', run := SkipStep(s), s.pc.run;
    AfterBranchKeepsLoop(s, run);
    SameBound(s, run, s', run);
    hide RunBounded, Bounded, AfterBranch, Posted;
  }

  lemma MarkKeepsLoop(s: State)
    requires LoopInv(s) && s.pc.Marking?
    ensures LoopInv(MarkStep(s))
  {
    var s' := MarkStep(s);
    assert s'.pc.Clearing? && s'.pc.run == s.pc.run;
    hide MarkStep;
    SameBound(s, s.pc.run, s', s.pc.run);
    hide RunBounded;
  }

  lemma PromotedKeepsLoop(s: State)
    requires LoopInv(s) && s.pc.Promoted?
    ensures LoopInv(s.(pc := if s.shutdown then Stopped else Marking(s.pc.run)))
  {
    var s' := s.(pc := if s.shutdown then Stopped else Marking(s.pc.run));
    SameBound(s, s.pc.run, s', s.pc.run);
    hide RunBounded;
  }

  lemma EndStepKeepsLoop(w: World, s: State, a: Action)
    requires LoopInv(s) && Enabled(w, s, a)
    requires a.Judge? || a.ClearSuperseded? || a.Attempt? || a.AfterPromotion? || a.Mark? || a.Clear? || a.Skip?
    ensures LoopInv(Step(w, s, a))
  {
    hide Step, Enabled, JudgeStep, AttemptStep, ClearSupersededStep, ClearStep, SkipStep, MarkStep, LoopInv;
    if a.ClearSuperseded? || a.Clear? || a.Skip? { UnfoldLeave(w, s, a); } else { UnfoldEnd(w, s, a); }
    match a
    case Judge => JudgeKeepsLoop(w, s);
    case Attempt(ok) => AttemptKeepsLoop(w, s, ok);
    case AfterPromotion => PromotedKeepsLoop(s);
    case Mark => MarkKeepsLoop(s);
    case Clear(skipped) => LeavingKeepsLoop(w, s, skipped);
    case Skip => SkipKeepsLoop(s);
    case _ => LeavingKeepsLoop(w, s, []);
  }

  lemma OtherStepKeepsLoop(w: World, s: State, a: Action)
    requires LoopInv(s) && Enabled(w, s, a)
    requires a.Expire? || a.Reconcile? || a.Resolve? || a.BootDone? || a.StartSweep? || a.PullsDone? || a.LeaveBranch?
    ensures LoopInv(Step(w, s, a))
  {
    hide Step, Enabled, Watched;
    if a.Reconcile? || a.Resolve? || a.BootDone? {
      UnfoldBoot(w, s, a);
    } else if a.Expire? {
      UnfoldWithin(w, s, a);
    } else {
      UnfoldSweep(w, s, a);
    }
  }

  lemma LoopStep(w: World, s: State, a: Action)
    requires LoopInv(s) && Enabled(w, s, a)
    ensures LoopInv(Step(w, s, a))
  {
    hide Step, Enabled, LoopInv;
    if a.Move? {
      MoveKeepsLoop(w, s, a);
    } else if a.Shut? || a.Observe? || a.Fire? || a.Gate? {
      RunStepKeepsLoop(w, s, a);
    } else if a.NextRef? || a.LsRemote? {
      PollStepKeepsLoop(w, s, a);
    } else if a.Clone? || a.SkipClone? {
      CloneKeepsLoop(w, s, a);
    } else if a.StartPull? {
      PullKeepsLoop(w, s, a.number, a.sha, a.truth);
    } else if a.StartBranchRun? {
      BeginKeepsLoop(w, s, a.truth);
    } else if a.Judge? || a.ClearSuperseded? || a.Attempt? || a.AfterPromotion? || a.Mark? || a.Clear? || a.Skip? {
      EndStepKeepsLoop(w, s, a);
    } else {
      OtherStepKeepsLoop(w, s, a);
    }
  }

  lemma InitCause(r: G.Reading)
    ensures G.Init(r).units.cause == None
  {
  }

  lemma {:induction false} LoopRun(w: World, first: State, schedule: seq<Action>)
    requires Starts(first) && Exec(w, first, schedule).Some?
    ensures LoopInv(Exec(w, first, schedule).value)
  {
    if schedule != [] {
      LoopRun(w, first, schedule[..|schedule| - 1]);
      LoopStep(w, Exec(w, first, schedule[..|schedule| - 1]).value, schedule[|schedule| - 1]);
    }
  }

  function LoopOf(pc: Pc): Option<Loop> {
    match pc
    case Polling(loop) => Some(loop)
    case Sampled(loop, _) => Some(loop)
    case Cloned(loop, _, _, _) => Some(loop)
    case Running(run) => if run.origin.FromBranch? then Some(run.origin.loop) else None
    case Superseding(run) => if run.origin.FromBranch? then Some(run.origin.loop) else None
    case Promoting(run, _, _) => if run.origin.FromBranch? then Some(run.origin.loop) else None
    case Promoted(run) => if run.origin.FromBranch? then Some(run.origin.loop) else None
    case Marking(run) => if run.origin.FromBranch? then Some(run.origin.loop) else None
    case Clearing(run, _) => if run.origin.FromBranch? then Some(run.origin.loop) else None
    case Skipping(run, _) => if run.origin.FromBranch? then Some(run.origin.loop) else None
    case Returned(loop, _) => Some(loop)
    case _ => None
  }

  /** However often runs are superseded, one call of processBranch is never in an
      iteration beyond N + 1 when its branch has moved N times since the call began. */
  lemma IterationsBounded(w: World, first: State, s: State)
    requires Starts(first) && Reachable(w, first, s) && LoopOf(s.pc).Some?
    ensures var loop := LoopOf(s.pc).value;
            loop.iteration <= (Moves(s.heads, BranchKey(loop.ref)) - loop.since) + 1
  {
    var schedule :| Exec(w, first, schedule) == Some(s);
    LoopRun(w, first, schedule);
  }

  // ----- quiescence -----

  predicate SeenInv(s: State) {
    match s.pc
    case Clearing(run, _) =>
      run.origin.FromBranch? ==> Commit(run.origin.loop.ref.repo, run.origin.tip) in s.seen && RunCommit(run) in s.seen
    case Skipping(run, _) =>
      run.origin.FromBranch? ==> Commit(run.origin.loop.ref.repo, run.origin.tip) in s.seen && RunCommit(run) in s.seen
    case Returned(loop, tip) => Commit(loop.ref.repo, tip) in s.seen
    case _ => true
  }

  lemma PollKeepsSeen(w: World, s: State, a: Action)
    requires Enabled(w, s, a) && (a.SkipClone? || a.LsRemote? || a.Clone?)
    ensures SeenInv(Step(w, s, a))
  {
    hide Step, Enabled;
    UnfoldPoll(w, s, a);
  }

  lemma EndKeepsSeen(w: World, s: State, a: Action)
    requires Enabled(w, s, a) && (a.Judge? || a.Attempt? || a.AfterPromotion? || a.Mark?)
    ensures SeenInv(Step(w, s, a))
  {
    hide Step, Enabled;
    UnfoldEnd(w, s, a);
    if a.Mark? { MarkKeepsSeen(s); }
    hide MarkStep, PromoteTarget, G.WasSuperseded, Posted, RunCommit;
  }

  lemma LeaveKeepsSeen(w: World, s: State, a: Action)
    requires SeenInv(s) && Enabled(w, s, a) && (a.ClearSuperseded? || a.Clear? || a.Skip?)
    ensures SeenInv(Step(w, s, a))
  {
    hide Step, Enabled;
    UnfoldLeave(w, s, a);
    match a
    case Clear(skipped) => LeavingKeepsSeen(w, s, skipped);
    case Skip => LeavingKeepsSeen(w, s, []);
    case ClearSuperseded =>
  }

  lemma WithinKeepsSeen(w: World, s: State, a: Action)
    requires SeenInv(s) && Enabled(w, s, a)
    requires a.Move? || a.Shut? || a.Expire? || a.Observe? || a.Fire? || a.Gate?
    ensures SeenInv(Step(w, s, a))
  {
    hide Step, Enabled, G.Step, G.Enabled, Posted;
    UnfoldWithin(w, s, a);
  }

  lemma SweepKeepsSeen(w: World, s: State, a: Action)
    requires Enabled(w, s, a)
    requires a.Reconcile? || a.Resolve? || a.BootDone? || a.StartSweep? || a.NextRef? || a.PullsDone? || a.LeaveBranch?
             || a.StartBranchRun? || a.StartPull?
    ensures SeenInv(Step(w, s, a))
  {
    hide Step, Enabled, NewRun, Watched;
    if a.Reconcile? || a.Resolve? || a.BootDone? {
      UnfoldBoot(w, s, a);
    } else if a.StartBranchRun? || a.StartPull? {
      UnfoldBegin(w, s, a);
    } else {
      UnfoldSweep(w, s, a);
    }
  }

  lemma MarkKeepsSeen(s: State)
    requires s.pc.Marking?
    ensures SeenInv(MarkStep(s))
  {
  }

  lemma LeavingKeepsSeen(w: World, s: State, skipped: seq<Sha>)
    requires SeenInv(s)
    ensures s.pc.Clearing? ==> SeenInv(ClearStep(w, s, skipped))
    ensures s.pc.Skipping? && s.pc.run.origin.FromBranch? ==> SeenInv(SkipStep(s))
  {
    hide G.WasSuperseded, Posted;
  }

  lemma SeenStep(w: World, s: State, a: Action)
    requires SeenInv(s) && Enabled(w, s, a)
    ensures SeenInv(Step(w, s, a))
  {
    hide Step, Enabled;
    if a.SkipClone? || a.LsRemote? || a.Clone? {
      PollKeepsSeen(w, s, a);
    } else if a.Judge? || a.Attempt? || a.AfterPromotion? || a.Mark? {
      EndKeepsSeen(w, s, a);
    } else if a.Clear? || a.Skip? || a.ClearSuperseded? {
      LeaveKeepsSeen(w, s, a);
    } else if a.Move? || a.Shut? || a.Expire? || a.Observe? || a.Fire? || a.Gate? {
      WithinKeepsSeen(w, s, a);
    } else {
      SweepKeepsSeen(w, s, a);
    }
  }

  lemma {:induction false} SeenRun(w: World, first: State, schedule: seq<Action>)
    requires Starts(first) && Exec(w, first, schedule).Some?
    ensures SeenInv(Exec(w, first, schedule).value)
  {
    if schedule != [] {
      SeenRun(w, first, schedule[..|schedule| - 1]);
      SeenStep(w, Exec(w, first, schedule[..|schedule| - 1]).value, schedule[|schedule| - 1]);
    }
  }

  /** When processBranch returns nil, its last sampled tip is seen. */
  lemma ReturnedMeansSeen(w: World, first: State, s: State)
    requires Starts(first) && Reachable(w, first, s) && s.pc.Returned?
    ensures Commit(s.pc.loop.ref.repo, s.pc.tip) in s.seen
  {
    var schedule :| Exec(w, first, schedule) == Some(s);
    SeenRun(w, first, schedule);
  }

  /** The branch stays where it is and its commit is not pruned. */
  predicate LeavesAlone(a: Action, k: Key, c: Commit) {
    (a.Move? ==> a.key != k) && (a.Expire? ==> c !in a.gone)
  }

  predicate AllLeaveAlone(schedule: seq<Action>, k: Key, c: Commit) {
    forall i | 0 <= i < |schedule| :: LeavesAlone(schedule[i], k, c)
  }

  /** No step leads from a seen tip into a run of it. */
  ghost predicate AtRest(s: State, k: Key, head: Head, c: Commit) {
    && k in s.heads && s.heads[k] == head && c in s.seen
    && (s.pc.Sampled? && BranchKey(s.pc.loop.ref) == k ==> Commit(s.pc.loop.ref.repo, s.pc.tip) != c)
    && (s.pc.Running? ==> RunCommit(s.pc.run) != c)
  }

  lemma QuietWithin(w: World, s: State, a: Action, k: Key, head: Head, c: Commit)
    requires AtRest(s, k, head, c) && Enabled(w, s, a) && LeavesAlone(a, k, c)
    requires a.Move? || a.Shut? || a.Expire? || a.Observe? || a.Fire? || a.Gate?
    ensures AtRest(Step(w, s, a), k, head, c)
  {
    hide Step, Enabled;
    UnfoldWithin(w, s, a);
    hide G.Step, G.Enabled, Posted;
  }

  lemma QuietPolls(w: World, s: State, a: Action, k: Key, head: Head, c: Commit)
    requires AtRest(s, k, head, c) && Enabled(w, s, a)
    requires a.LsRemote? || a.Clone? || a.SkipClone?
    ensures AtRest(Step(w, s, a), k, head, c)
  {
    hide Step, Enabled;
    UnfoldPoll(w, s, a);
  }

  lemma QuietBegins(w: World, s: State, a: Action, k: Key, head: Head, c: Commit)
    requires AtRest(s, k, head, c) && Enabled(w, s, a) && (a.StartBranchRun? || a.StartPull?)
    ensures AtRest(Step(w, s, a), k, head, c)
  {
    hide Step, Enabled;
    UnfoldBegin(w, s, a);
    if a.StartBranchRun? {
      BegunRun(w, s, FromBranch(s.pc.loop, s.pc.tip, s.pc.at), s.pc.sha, a.truth);
    } else {
      BegunRun(w, s, FromPull(s.pc.ref, a.number), a.sha, a.truth);
    }
    hide NewRun;
  }

  lemma EndsOutside(w: World, s: State, a: Action)
    requires Enabled(w, s, a) && (a.Judge? || a.Attempt? || a.AfterPromotion? || a.Mark?)
    ensures !Step(w, s, a).pc.Sampled? && !Step(w, s, a).pc.Running? && Step(w, s, a).heads == s.heads
  {
    hide Step, Enabled, PromoteTarget, Posted, RunCommit, G.WasSuperseded;
    UnfoldEnd(w, s, a);
  }

  lemma LeavesOutside(w: World, s: State, a: Action)
    requires Enabled(w, s, a) && (a.ClearSuperseded? || a.Clear? || a.Skip?)
    ensures !Step(w, s, a).pc.Sampled? && !Step(w, s, a).pc.Running? && Step(w, s, a).heads == s.heads
  {
    hide Step, Enabled, Posted, RunCommit, G.WasSuperseded;
    UnfoldLeave(w, s, a);
  }

  lemma StaysOutside(w: World, s: State, a: Action)
    requires Enabled(w, s, a)
    requires !a.Move? && !a.Shut? && !a.Expire? && !a.Observe? && !a.Fire? && !a.Gate?
    requires !a.LsRemote? && !a.Clone? && !a.SkipClone? && !a.StartBranchRun? && !a.StartPull?
    ensures !Step(w, s, a).pc.Sampled? && !Step(w, s, a).pc.Running? && Step(w, s, a).heads == s.heads
  {
    hide Step, Enabled, Watched, RunCommit;
    if a.Reconcile? || a.Resolve? || a.BootDone? {
      UnfoldBoot(w, s, a);
    } else if a.Judge? || a.Attempt? || a.AfterPromotion? || a.Mark? {
      EndsOutside(w, s, a);
    } else if a.Clear? || a.Skip? || a.ClearSuperseded? {
      LeavesOutside(w, s, a);
    } else {
      UnfoldSweep(w, s, a);
    }
  }

  lemma QuietElsewhere(w: World, s: State, a: Action, k: Key, head: Head, c: Commit)
    requires AtRest(s, k, head, c) && Enabled(w, s, a)
    requires !a.Move? && !a.Shut? && !a.Expire? && !a.Observe? && !a.Fire? && !a.Gate?
    requires !a.LsRemote? && !a.Clone? && !a.SkipClone? && !a.StartBranchRun? && !a.StartPull?
    ensures AtRest(Step(w, s, a), k, head, c)
  {
    SeenGrows(w, s, a);
    StaysOutside(w, s, a);
    hide Step, Enabled, RunCommit;
  }

  lemma QuietStep(w: World, s: State, a: Action, k: Key, head: Head, c: Commit)
    requires AtRest(s, k, head, c) && Enabled(w, s, a) && LeavesAlone(a, k, c)
    ensures AtRest(Step(w, s, a), k, head, c)
  {
    hide AtRest, Enabled, Step;
    if a.Move? || a.Shut? || a.Expire? || a.Observe? || a.Fire? || a.Gate? {
      QuietWithin(w, s, a, k, head, c);
    } else if a.LsRemote? || a.Clone? || a.SkipClone? {
      QuietPolls(w, s, a, k, head, c);
    } else if a.StartBranchRun? || a.StartPull? {
      QuietBegins(w, s, a, k, head, c);
    } else {
      QuietElsewhere(w, s, a, k, head, c);
    }
  }

  lemma MarkGrowsSeen(s: State)
    requires s.pc.Marking?
    ensures s.seen <= MarkStep(s).seen
  {
  }

  lemma SameSeen(w: World, s: State, a: Action)
    requires Enabled(w, s, a) && !a.Expire? && !a.Mark? && !a.SkipClone? && !a.LsRemote? && !a.Clone?
    ensures Step(w, s, a).seen == s.seen
  {
    hide Step, Enabled, NewRun, JudgeStep, AttemptStep, ClearSupersededStep, ClearStep;
    hide SkipStep, GateStep, ReconcileStep, ResolveStep, Cancelled, Begin;
    if a.Judge? || a.Attempt? || a.AfterPromotion? {
      UnfoldEnd(w, s, a);
    } else if a.Clear? || a.Skip? || a.ClearSuperseded? {
      UnfoldLeave(w, s, a);
    } else if a.Move? || a.Shut? || a.Observe? || a.Fire? || a.Gate? {
      UnfoldWithin(w, s, a);
    } else if a.Reconcile? || a.Resolve? || a.BootDone? {
      UnfoldBoot(w, s, a);
    } else if a.StartBranchRun? || a.StartPull? {
      UnfoldBegin(w, s, a);
    } else {
      UnfoldSweep(w, s, a);
    }
  }

  lemma SeenGrows(w: World, s: State, a: Action)
    requires Enabled(w, s, a) && !a.Expire?
    ensures s.seen <= Step(w, s, a).seen
  {
    hide Step, Enabled, NewRun, LsRemoteStep, CloneStep, JudgeStep, AttemptStep, ClearSupersededStep, ClearStep;
    hide SkipStep, GateStep, ReconcileStep, ResolveStep, Cancelled, Begin, MarkStep;
    if a.Mark? {
      UnfoldEnd(w, s, a);
      MarkGrowsSeen(s);
    } else if a.SkipClone? || a.LsRemote? || a.Clone? {
      UnfoldPoll(w, s, a);
    } else {
      SameSeen(w, s, a);
    }
  }

  lemma ReturnedAtRest(s: State, k: Key, c: Commit)
    requires s.pc.Returned? && k in s.heads && c in s.seen
    ensures AtRest(s, k, s.heads[k], c)
  {
  }

  lemma RestingPoll(w: World, s: State, k: Key, head: Head, c: Commit)
    requires AtRest(s, k, head, c) && c.sha == head.sha && s.pc.Polling? && k == BranchKey(s.pc.loop.ref)
    requires c.repo == s.pc.loop.ref.repo
    ensures Enabled(w, s, LsRemote(true))
    ensures Step(w, s, LsRemote(true)) == s.(pc := Returned(s.pc.loop, c.sha))
  {
    UnfoldPoll(w, s, LsRemote(true));
    hide Step;
  }

  /** Quiescence. After processBranch has returned nil for an unmoved branch, whatever
      else the engine does, and however often it sweeps: while the branch stays there and
      its tip is not pruned, every later poll of it changes nothing but the engine's
      position, and the tip is never run again, not even as a pull request. */
  lemma {:induction false} Quiescence(w: World, first: State, s: State, schedule: seq<Action>)
    requires Starts(first) && Reachable(w, first, s) && s.pc.Returned?
    requires var k := BranchKey(s.pc.loop.ref);
             && k in s.heads && s.heads[k].sha == s.pc.tip
             && AllLeaveAlone(schedule, k, Commit(s.pc.loop.ref.repo, s.pc.tip))
    requires Exec(w, s, schedule).Some?
    ensures var k, c := BranchKey(s.pc.loop.ref), Commit(s.pc.loop.ref.repo, s.pc.tip);
            var later := Exec(w, s, schedule).value;
            && AtRest(later, k, s.heads[k], c)
            && (later.pc.Polling? && later.pc.loop.ref == s.pc.loop.ref ==>
                  && Enabled(w, later, LsRemote(true))
                  && Step(w, later, LsRemote(true)) == later.(pc := Returned(later.pc.loop, s.pc.tip)))
  {
    hide AtRest, Enabled, Step;
    var k, c := BranchKey(s.pc.loop.ref), Commit(s.pc.loop.ref.repo, s.pc.tip);
    if schedule == [] {
      ReturnedMeansSeen(w, first, s);
      assert AtRest(s, k, s.heads[k], c) by { ReturnedAtRest(s, k, c); }
    } else {
      var n := |schedule| - 1;
      assert forall i | 0 <= i < n :: schedule[..n][i] == schedule[i];
      Quiescence(w, first, s, schedule[..n]);
      QuietStep(w, Exec(w, s, schedule[..n]).value, schedule[n], k, s.heads[k], c);
    }
    var later := Exec(w, s, schedule).value;
    if later.pc.Polling? && later.pc.loop.ref == s.pc.loop.ref { RestingPoll(w, later, k, s.heads[k], c); }
  }
}
