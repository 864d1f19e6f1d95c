/** What the engine tells the outside world: the verdicts that a concluded run leaves in
    the ledger, how a promotion ends, and who may change which status to what. */
module LifecycleVerdicts {
  import opened Common
  import opened Sums
  import opened Lifecycle
  import opened Safety = LifecycleSafety
  import S = Scheduler
  import G = Gate

  // ----- the ledger, status by status -----

  /** The ledger has this status at the place. */
  predicate ReadsAs(l: Ledger, p: Place, status: Status) { p in l && l[p] == status }

  predicate AllTrue(truth: seq<bool>) { forall i | 0 <= i < |truth| :: truth[i] }

  lemma {:induction false} OverlayReads(base: Ledger, c: Commit, posts: seq<G.Post>, context: Context)
    ensures Latest(posts, context).Some? ==>
              ReadsAs(Overlay(base, c, posts), Place(c, context), Latest(posts, context).value)
  {
    if posts != [] {
      var n := |posts| - 1;
      OverlayReads(base, c, posts[..n], context);
      LatestAppend(posts[..n], posts[n], context);
      assert posts == posts[..n] + [posts[n]];
      hide Latest;
    }
  }

  lemma {:induction false} NothingFor(posts: seq<G.Post>, context: Context)
    requires forall k | 0 <= k < |posts| :: posts[k].context != context
    ensures G.PostsFor(posts, context) == []
  {
    if posts != [] { NothingFor(posts[..|posts| - 1], context); }
  }

  /** On every context but the promotion's, a run's last post is its gate's. */
  lemma GateHasTheLastWord(run: Run, context: Context)
    requires GatePosts(run) && context != Promote
    ensures Latest(run.posts, context) == Latest(run.gate.log, context)
  {
    var rest := run.posts[|run.gate.log|..];
    assert run.posts == run.gate.log + rest;
    G.PostsForConcat(run.gate.log, rest, context);
    NothingFor(rest, context);
    hide G.PostsFor;
  }

  /** What a finished gate's log says about each context. */
  lemma LogVerdicts(p: G.Plan, g: G.State)
    requires G.ValidPlan(p) && G.Finished(p, g)
    ensures forall i | 0 <= i < |p.contexts| ::
              Latest(g.log, p.contexts[i]) ==
              Some(if !g.units.completed[i] then Error else if p.units.truth[i] then Success else Failure)
    ensures g.pc.completed ==> Latest(g.log, Rollup) == Some(if g.pc.passed then Success else Failure)
  {
    hide G.Finished, G.PostsFor, G.ValidPlan;
    G.FinishedParts(p, g);
    forall i | 0 <= i < |p.contexts|
      ensures Latest(g.log, p.contexts[i]) ==
              Some(if !g.units.completed[i] then Error else if p.units.truth[i] then Success else Failure)
    {
      G.UnitTrace(p, g, i);
    }
    NotAUnit(p);
    G.OtherTrace(p, g, Rollup);
  }

  lemma NotAUnit(p: G.Plan)
    requires G.ValidPlan(p)
    ensures Rollup !in p.contexts && Promote !in p.contexts
  {
  }

  /** The parts of the invariant for a run that has been judged. */
  lemma JudgedRun(w: World, v: View, run: Run, before: set<Place>)
    requires RunOpen(w, v, run, before) && run.gate.pc.Done?
    requires run.gate.pc.completed || G.WasSuperseded(run.gate)
    ensures v.ledger == Overlay(run.base, RunCommit(run), run.posts)
    ensures run.reading.Some? <==> RunCommit(run) in w.files
    ensures run.reading.Some? ==>
              G.ValidPlan(run.reading.value) && G.Finished(run.reading.value, run.gate)
              && run.reading.value.contexts == w.files[RunCommit(run)].contexts
    ensures run.reading.None? ==> run.gate.log == [G.Post(Rollup, Error)]
  {
    if run.reading.Some? { G.FinishedFromInv(run.reading.value, run.gate); }
    hide Overlay, Quiet, G.ValidPlan, G.Finished, G.PlanInv;
  }

  /** Every step's context reads success or failure as the step turned out, and the rollup
      success exactly when all of them succeeded. */
  predicate VerdictsIn(l: Ledger, c: Commit, contexts: seq<Context>, truth: seq<bool>) {
    && |truth| == |contexts|
    && (forall i | 0 <= i < |contexts| :: ReadsAs(l, Place(c, contexts[i]), if truth[i] then Success else Failure))
    && ReadsAs(l, Place(c, Rollup), if AllTrue(truth) then Success else Failure)
  }

  /** When a completed run is about to be marked, the ledger tells the truth about it:
      every step of its configuration reads success or failure as the step really turned
      out, and the rollup reads success exactly when all of them succeeded; a commit
      without a usable configuration reads error. */
  lemma LedgerTellsTheTruth(w: World, first: State, s: State)
    requires ValidWorld(w) && Starts(first) && Reachable(w, first, s) && s.pc.Marking?
    ensures var run, c := s.pc.run, RunCommit(s.pc.run);
            && (c !in w.files ==> ReadsAs(s.ledger, Place(c, Rollup), Error))
            && (c in w.files ==>
                  run.reading.Some? && VerdictsIn(s.ledger, c, w.files[c].contexts, run.reading.value.units.truth))
  {
    hide Reachable, RunOpen, Overlay, Closed, Starts, ValidWorld;
    MarkingFacts(w, first, s);
    var run, c := s.pc.run, RunCommit(s.pc.run);
    JudgedRun(w, ViewOf(s), run, OpenPlaces(first.ledger));
    hide G.Finished, G.ValidPlan, GatePosts, G.Inv, VerdictsIn, ReadsAs, RunCommit, G.ValidReading;
    if c in w.files { VerdictsInLedger(run, c); } else { ErrorInLedger(run, c); }
  }

  lemma ErrorInLedger(run: Run, c: Commit)
    requires GatePosts(run) && run.gate.log == [G.Post(Rollup, Error)]
    ensures ReadsAs(Overlay(run.base, c, run.posts), Place(c, Rollup), Error)
  {
    hide GatePosts, Latest, ReadsAs, Overlay;
    OverlayReads(run.base, c, run.posts, Rollup);
    GateHasTheLastWord(run, Rollup);
    OnlyPost(G.Post(Rollup, Error));
  }

  lemma OnlyPost(post: G.Post)
    ensures Latest([post], post.context) == Some(post.status)
  {
    G.OnePost(post.context, post.status, post.context);
  }

  lemma MarkingFacts(w: World, first: State, s: State)
    requires ValidWorld(w) && Starts(first) && Reachable(w, first, s) && s.pc.Marking?
    ensures RunOpen(w, ViewOf(s), s.pc.run, OpenPlaces(first.ledger)) && GatePosts(s.pc.run)
    ensures s.pc.run.gate.pc.Done? && s.pc.run.gate.pc.completed
    ensures G.Inv(s.pc.run.reading, s.pc.run.gate) && G.ValidReading(s.pc.run.reading)
  {
    var schedule :| Exec(w, first, schedule) == Some(s);
    LedgerRun(w, first, schedule);
    hide Exec, Overlay;
  }

  /** The gate's own verdict is the conjunction of its units'. */
  lemma PassedIsAllTrue(p: G.Plan, g: G.State)
    requires G.ValidPlan(p) && G.Inv(Some(p), g) && g.pc.Done? && g.pc.completed
    ensures |g.units.completed| == |p.contexts| == |p.units.truth|
    ensures forall i | 0 <= i < |p.contexts| :: g.units.completed[i]
    ensures g.pc.passed <==> AllTrue(p.units.truth)
  {
    G.RollupMeaning(p, g);
    hide G.ValidPlan, G.Inv, G.PlanInv;
  }

  /** What a completed run with a configuration has last posted. */
  lemma MarkedVerdicts(run: Run)
    requires run.reading.Some? && G.ValidPlan(run.reading.value) && G.Finished(run.reading.value, run.gate)
    requires G.Inv(run.reading, run.gate) && run.gate.pc.Done? && run.gate.pc.completed && GatePosts(run)
    ensures var contexts, truth := run.reading.value.contexts, run.reading.value.units.truth;
            && |truth| == |contexts|
            && (forall i | 0 <= i < |contexts| ::
                  Latest(run.posts, contexts[i]) == Some(if truth[i] then Success else Failure))
            && Latest(run.posts, Rollup) == Some(if AllTrue(truth) then Success else Failure)
  {
    hide GatePosts, Latest, G.AllCompleted, G.PlanInv, G.Finished, G.ValidPlan, G.Inv, AllTrue;
    var p := run.reading.value;
    LogVerdicts(p, run.gate);
    PassedIsAllTrue(p, run.gate);
    NotAUnit(p);
    forall i | 0 <= i < |p.contexts|
      ensures Latest(run.posts, p.contexts[i]) == Some(if p.units.truth[i] then Success else Failure)
    {
      GateHasTheLastWord(run, p.contexts[i]);
    }
    GateHasTheLastWord(run, Rollup);
  }

  lemma VerdictsInLedger(run: Run, c: Commit)
    requires run.reading.Some? && G.ValidPlan(run.reading.value) && G.Finished(run.reading.value, run.gate)
    requires G.Inv(run.reading, run.gate) && run.gate.pc.Done? && run.gate.pc.completed && GatePosts(run)
    ensures VerdictsIn(Overlay(run.base, c, run.posts), c,
                       run.reading.value.contexts, run.reading.value.units.truth)
  {
    hide GatePosts, Latest, G.PlanInv, G.Finished, G.ValidPlan, G.Inv, AllTrue, ReadsAs, Overlay;
    MarkedVerdicts(run);
    var p, l := run.reading.value, Overlay(run.base, c, run.posts);
    forall i | 0 <= i < |p.contexts|
      ensures ReadsAs(l, Place(c, p.contexts[i]), if p.units.truth[i] then Success else Failure)
    {
      OverlayReads(run.base, c, run.posts, p.contexts[i]);
    }
    OverlayReads(run.base, c, run.posts, Rollup);
  }

  /** And when a run was cut by a newer commit: its rollup reads error, the steps that did
      complete keep their results, and every other one reads error. */
  lemma SupersededLedger(w: World, first: State, s: State)
    requires ValidWorld(w) && Starts(first) && Reachable(w, first, s) && s.pc.Superseding?
    ensures var run, c := s.pc.run, RunCommit(s.pc.run);
            && ReadsAs(s.ledger, Place(c, Rollup), Error)
            && c in w.files && run.reading.Some?
            && |run.reading.value.units.truth| == |run.gate.units.completed| == |w.files[c].contexts|
            && forall i | 0 <= i < |w.files[c].contexts| ::
                 ReadsAs(s.ledger, Place(c, w.files[c].contexts[i]),
                       if !run.gate.units.completed[i] then Error
                       else if run.reading.value.units.truth[i] then Success else Failure)
  {
    hide Reachable, RunOpen, Overlay, Closed;
    SupersedingFacts(w, first, s);
    var run, c := s.pc.run, RunCommit(s.pc.run);
    JudgedRun(w, ViewOf(s), run, OpenPlaces(first.ledger));
    hide G.ValidPlan, G.PlanInv;
    var p := run.reading.value;
    LogVerdicts(p, run.gate);
    G.FinishedParts(p, run.gate);
    hide G.Finished;
    OverlayReads(run.base, c, run.posts, Rollup);
    LatestAppend(run.gate.log, G.Post(Rollup, Error), Rollup);
    NotAUnit(p);
    forall i | 0 <= i < |w.files[c].contexts|
      ensures ReadsAs(s.ledger, Place(c, w.files[c].contexts[i]),
                    if !run.gate.units.completed[i] then Error
                    else if run.reading.value.units.truth[i] then Success else Failure)
    {
      LatestAppend(run.gate.log, G.Post(Rollup, Error), p.contexts[i]);
      OverlayReads(run.base, c, run.posts, p.contexts[i]);
    }
  }

  lemma SupersedingFacts(w: World, first: State, s: State)
    requires ValidWorld(w) && Starts(first) && Reachable(w, first, s) && s.pc.Superseding?
    ensures RunOpen(w, ViewOf(s), s.pc.run, OpenPlaces(first.ledger))
    ensures s.pc.run.posts == s.pc.run.gate.log + [G.Post(Rollup, Error)]
    ensures s.pc.run.gate.pc == G.Done(false, false) && G.WasSuperseded(s.pc.run.gate)
    ensures s.pc.run.reading.Some?
  {
    var schedule :| Exec(w, first, schedule) == Some(s);
    LedgerRun(w, first, schedule);
    hide Exec, Overlay;
  }

  // ----- from stage to stage -----

  /** Where an action can take the engine from one stage to another. */
  predicate Leads(a: Action, pc: Pc, next: Pc) {
    match a
    case Reconcile(_, _, _) => next.Boot? || next.Resolving?
    case Resolve => next.Boot? || next.Resolving?
    case BootDone => pc.Boot? && next.Idle?
    case StartSweep => pc.Idle? && next.Idle?
    case NextRef => pc.Idle? && next.Polling?
    case LsRemote(_) => pc.Polling? && (next.Sampled? || next.Returned? || next.Pulls?)
    case Clone(_) => pc.Sampled? && (next.Cloned? || next.Pulls?)
    case SkipClone => pc.Cloned? && next.Returned?
    case StartBranchRun(_) => pc.Cloned? && next.Running?
    case StartPull(_, _, _) => pc.Pulls? && next.Running?
    case PullsDone => pc.Pulls? && next.Idle?
    case LeaveBranch => pc.Returned? && next.Pulls?
    case Judge => pc.Running? && (next.Superseding? || next.Promoting? || next.Marking? || next.Stopped?)
    case Attempt(_) => pc.Promoting? && (next.Promoting? || next.Promoted?)
    case AfterPromotion => pc.Promoted? && (next.Marking? || next.Stopped?)
    case Mark => pc.Marking? && next.Clearing?
    case ClearSuperseded => pc.Superseding? && (next.Polling? || next.Pulls? || next.Stopped?)
    case Clear(_) => pc.Clearing? && (next.Skipping? || next.Polling? || next.Returned? || next.Pulls?)
    case Skip => pc.Skipping? && (next.Skipping? || next.Polling? || next.Returned?)
    case _ => if pc.Running? then next.Running? else next == pc
  }

  lemma WithinLeads(w: World, s: State, a: Action)
    requires Enabled(w, s, a) && (a.Move? || a.Shut? || a.Expire? || a.Observe? || a.Fire? || a.Gate?)
    ensures Leads(a, s.pc, Step(w, s, a).pc)
  {
    hide Step, Enabled, G.Enabled, G.Step, Posted, RunCommit;
    UnfoldWithin(w, s, a);
  }

  lemma BootLeads(w: World, s: State, a: Action)
    requires Enabled(w, s, a) && (a.Reconcile? || a.Resolve? || a.BootDone?)
    ensures Leads(a, s.pc, Step(w, s, a).pc)
  {
    hide Step, Enabled, Watched;
    UnfoldBoot(w, s, a);
  }

  lemma PollLeads(w: World, s: State, a: Action)
    requires Enabled(w, s, a) && (a.LsRemote? || a.Clone? || a.SkipClone?)
    ensures Leads(a, s.pc, Step(w, s, a).pc)
  {
    hide Step, Enabled;
    UnfoldPoll(w, s, a);
  }

  lemma SweepLeads(w: World, s: State, a: Action)
    requires Enabled(w, s, a) && (a.StartSweep? || a.NextRef? || a.PullsDone? || a.LeaveBranch?)
    ensures Leads(a, s.pc, Step(w, s, a).pc)
  {
    hide Step, Enabled;
    UnfoldSweep(w, s, a);
  }

  lemma BeginLeads(w: World, s: State, a: Action)
    requires Enabled(w, s, a) && (a.StartBranchRun? || a.StartPull?)
    ensures Leads(a, s.pc, Step(w, s, a).pc)
  {
    hide Step, Enabled, NewRun;
    UnfoldBegin(w, s, a);
  }

  lemma EndLeads(w: World, s: State, a: Action)
    requires Enabled(w, s, a) && (a.Judge? || a.Attempt? || a.AfterPromotion? || a.Mark?)
    ensures Leads(a, s.pc, Step(w, s, a).pc)
  {
    hide Step, Enabled, Posted, RunCommit, PromoteTarget, G.WasSuperseded;
    UnfoldEnd(w, s, a);
  }

  lemma LeaveLeads(w: World, s: State, a: Action)
    requires Enabled(w, s, a) && (a.ClearSuperseded? || a.Clear? || a.Skip?)
    ensures Leads(a, s.pc, Step(w, s, a).pc)
  {
    hide Step, Enabled, Posted, RunCommit;
    UnfoldLeave(w, s, a);
  }

  /** The engine's stages follow one another in this order only: a run is judged once its
      gate is done, promoted before it is marked, marked before its marker is cleared; and
      no sweep of a ref ends before its pull requests have had their turn. */
  lemma StepLeads(w: World, s: State, a: Action)
    requires Enabled(w, s, a)
    ensures Leads(a, s.pc, Step(w, s, a).pc)
  {
    hide Step, Enabled, Leads;
    if a.Move? || a.Shut? || a.Expire? || a.Observe? || a.Fire? || a.Gate? {
      WithinLeads(w, s, a);
    } else if a.Judge? || a.Attempt? || a.AfterPromotion? || a.Mark? {
      EndLeads(w, s, a);
    } else if a.ClearSuperseded? || a.Clear? || a.Skip? {
      LeaveLeads(w, s, a);
    } else if a.Reconcile? || a.Resolve? || a.BootDone? {
      BootLeads(w, s, a);
    } else if a.LsRemote? || a.Clone? || a.SkipClone? {
      PollLeads(w, s, a);
    } else if a.StartBranchRun? || a.StartPull? {
      BeginLeads(w, s, a);
    } else {
      SweepLeads(w, s, a);
    }
  }

  // ----- promotion -----

  /** What the FastForwardRef calls made since the last judgement have answered. */
  ghost function Calls(w: World, first: State, schedule: seq<Action>): seq<bool> {
    if schedule == [] then [] else
      var before, a := schedule[..|schedule| - 1], schedule[|schedule| - 1];
      var s := Exec(w, first, before);
      if a.Judge? then []
      else if a.Attempt? && s.Some? && !s.value.shutdown then Calls(w, first, before) + [a.ok]
      else Calls(w, first, before)
  }

  predicate NoneOk(calls: seq<bool>) { forall k | 0 <= k < |calls| :: !calls[k] }

  ghost predicate AttemptInv(s: State, calls: seq<bool>) {
    match s.pc
    case Promoting(run, _, attempt) =>
      attempt == |calls| + 1 <= 3 && NoneOk(calls) && Latest(run.posts, Promote) == Some(Pending)
    case Promoted(run) =>
      && |calls| <= 3
      && Latest(run.posts, Promote) ==
         Some(if NoneOk(calls) then (if |calls| == 3 then Error else Pending) else Success)
      && (calls != [] ==> NoneOk(calls[..|calls| - 1]))
    case _ => true
  }

  lemma JudgeStarts(w: World, s: State)
    requires s.pc.Running? && s.pc.run.gate.pc.Done?
    ensures AttemptInv(JudgeStep(w, s), [])
  {
    hide Posted, PromoteTarget, RunCommit, Latest;
    LatestAppend(s.pc.run.posts, G.Post(Promote, Pending), Promote);
  }

  lemma OneMoreCall(calls: seq<bool>, ok: bool)
    requires NoneOk(calls)
    ensures NoneOk(calls + [ok]) <==> !ok
    ensures (calls + [ok])[..|calls + [ok]| - 1] == calls
  {
    assert (calls + [ok])[|calls|] == ok;
  }

  lemma AttemptAnswers(s: State, ok: bool, calls: seq<bool>)
    requires s.pc.Promoting? && AttemptInv(s, calls)
    ensures AttemptInv(AttemptStep(s, ok), if s.shutdown then calls else calls + [ok])
  {
    hide Posted, RunCommit, Latest, NoneOk;
    OneMoreCall(calls, ok);
    LatestAppend(s.pc.run.posts, G.Post(Promote, if ok then Success else Error), Promote);
    if s.shutdown && calls != [] { FewerCalls(calls); }
  }

  lemma FewerCalls(calls: seq<bool>)
    requires NoneOk(calls) && calls != []
    ensures NoneOk(calls[..|calls| - 1])
  {
  }

  /** No other step gets the engine into a promotion, or changes one. */
  lemma OthersLeavePromotion(w: World, s: State, a: Action)
    requires Enabled(w, s, a) && !a.Judge? && !a.Attempt?
    ensures Step(w, s, a).pc.Promoting? || Step(w, s, a).pc.Promoted? ==> Step(w, s, a).pc == s.pc
  {
    hide Step, Enabled;
    StepLeads(w, s, a);
  }

  lemma {:induction false} AttemptRun(w: World, first: State, schedule: seq<Action>)
    requires Starts(first) && Exec(w, first, schedule).Some?
    ensures AttemptInv(Exec(w, first, schedule).value, Calls(w, first, schedule))
  {
    hide AttemptInv, Step, Enabled, JudgeStep, AttemptStep;
    if schedule == [] {
      NotPromoting(first);
    } else {
      var n := |schedule| - 1;
      var s, a := Exec(w, first, schedule[..n]).value, schedule[n];
      AttemptRun(w, first, schedule[..n]);
      if a.Judge? {
        UnfoldEnd(w, s, a);
        JudgeStarts(w, s);
      } else if a.Attempt? {
        UnfoldEnd(w, s, a);
        AttemptAnswers(s, a.ok, Calls(w, first, schedule[..n]));
      } else {
        OthersLeavePromotion(w, s, a);
        SamePromotion(s, Step(w, s, a), Calls(w, first, schedule[..n]));
      }
    }
  }

  lemma NotPromoting(first: State)
    requires Starts(first)
    ensures AttemptInv(first, [])
  {
  }

  lemma SamePromotion(s: State, s': State, calls: seq<bool>)
    requires AttemptInv(s, calls) && (s'.pc.Promoting? || s'.pc.Promoted? ==> s'.pc == s.pc)
    ensures AttemptInv(s', calls)
  {
  }

  /** How a promotion ends. Its status on the run's commit reads success exactly when the
      last FastForwardRef call succeeded, error exactly when three were made and none did,
      and otherwise shutdown came before either; no call follows a success. */
  lemma PromotionVerdict(w: World, first: State, schedule: seq<Action>)
    requires ValidWorld(w) && Starts(first) && Exec(w, first, schedule).Some?
    requires Exec(w, first, schedule).value.pc.Promoted?
    ensures var s, calls := Exec(w, first, schedule).value, Calls(w, first, schedule);
            var p := Place(RunCommit(s.pc.run), Promote);
            && |calls| <= 3 && (forall k | 0 <= k < |calls| - 1 :: !calls[k])
            && p in s.ledger
            && (s.ledger[p] == Success <==> calls != [] && calls[|calls| - 1])
            && (s.ledger[p] == Error <==> |calls| == 3 && !calls[2])
            && (s.ledger[p] == Pending ==> s.shutdown)
            && s.ledger[p] != Failure
  {
    var s, calls := Exec(w, first, schedule).value, Calls(w, first, schedule);
    AttemptRun(w, first, schedule);
    PromotedFacts(w, first, schedule);
    hide Exec, Calls, Latest;
    OverlayReads(s.pc.run.base, RunCommit(s.pc.run), s.pc.run.posts, Promote);
    hide RunCommit, Overlay;
    if calls != [] { LastDecides(calls); }
  }

  lemma LastDecides(calls: seq<bool>)
    requires calls != [] && NoneOk(calls[..|calls| - 1])
    ensures NoneOk(calls) <==> !calls[|calls| - 1]
    ensures forall k | 0 <= k < |calls| - 1 :: !calls[k]
  {
    assert forall k | 0 <= k < |calls| - 1 :: calls[k] == calls[..|calls| - 1][k];
  }

  lemma PromotedFacts(w: World, first: State, schedule: seq<Action>)
    requires ValidWorld(w) && Starts(first) && Exec(w, first, schedule).Some?
    requires Exec(w, first, schedule).value.pc.Promoted?
    ensures var s := Exec(w, first, schedule).value; var run := s.pc.run;
            && s.ledger == Overlay(run.base, RunCommit(run), run.posts)
            && (Latest(run.posts, Promote) == Some(Pending) ==> s.shutdown)
  {
    LedgerRun(w, first, schedule);
    hide Exec, Overlay, Latest, G.Inv;
  }

  /** And when one begins: exactly after a branch run whose units all ran to their end and
      succeeded, not shut down, of a commit whose configuration names another branch than
      the watched one; the promotion's status then reads pending. */
  lemma PromotesExactly(w: World, first: State, s: State)
    requires ValidWorld(w) && Starts(first) && Reachable(w, first, s) && Enabled(w, s, Judge)
    ensures s.pc.Running?
    ensures var run, c, s' := s.pc.run, RunCommit(s.pc.run), Step(w, s, Judge);
            && (s'.pc.Promoting? <==>
                  && !s.shutdown && run.origin.FromBranch?
                  && c in w.files && w.files[c].promoteTo.Some?
                  && w.files[c].promoteTo.value != run.origin.loop.ref.branch
                  && run.reading.Some? && |run.gate.units.completed| == |run.reading.value.units.truth|
                  && forall i | 0 <= i < |run.gate.units.completed| ::
                       run.gate.units.completed[i] && run.reading.value.units.truth[i])
            && (s'.pc.Promoting? ==>
                  && s'.pc.target == w.files[c].promoteTo.value && s'.pc.attempt == 1
                  && s'.ledger == s.ledger[Place(c, Promote) := Pending])
  {
    hide Step, Enabled, Reachable, Starts, ValidWorld, G.Inv, G.ValidReading;
    UnfoldEnd(w, s, Judge);
    RunningFacts(w, first, s);
    var run := s.pc.run;
    PassedExactly(run.reading, run.gate);
    JudgePromotes(w, s);
    hide JudgeStep, RunCommit;
  }

  lemma JudgePromotes(w: World, s: State)
    requires s.pc.Running? && s.pc.run.gate.pc.Done? && (s.pc.run.gate.pc.passed ==> s.pc.run.gate.pc.completed)
    ensures var run, c, s' := s.pc.run, RunCommit(s.pc.run), JudgeStep(w, s);
            && (s'.pc.Promoting? <==>
                  && !s.shutdown && run.gate.pc.passed && run.origin.FromBranch?
                  && c in w.files && w.files[c].promoteTo.Some?
                  && w.files[c].promoteTo.value != run.origin.loop.ref.branch)
            && (s'.pc.Promoting? ==>
                  && s'.pc.target == w.files[c].promoteTo.value && s'.pc.attempt == 1
                  && s'.ledger == s.ledger[Place(c, Promote) := Pending])
  {
    hide RunCommit;
  }

  lemma PassedExactly(r: G.Reading, g: G.State)
    requires G.Inv(r, g) && G.ValidReading(r) && g.pc.Done?
    ensures g.pc.passed ==> g.pc.completed
    ensures r.Some? ==> |g.units.completed| == |r.value.units.truth|
    ensures g.pc.passed <==>
            r.Some? && forall i | 0 <= i < |g.units.completed| :: g.units.completed[i] && r.value.units.truth[i]
  {
    G.PassedMeansAllOk(r, g);
    PassedCompletes(r, g);
    hide G.Inv, G.ValidReading;
  }

  lemma RunningFacts(w: World, first: State, s: State)
    requires ValidWorld(w) && Starts(first) && Reachable(w, first, s) && s.pc.Running?
    ensures G.Inv(s.pc.run.reading, s.pc.run.gate) && G.ValidReading(s.pc.run.reading)
    ensures s.pc.run.reading.Some? <==> RunCommit(s.pc.run) in w.files
    ensures s.pc.run.reading.Some? ==>
              var c, k := s.pc.run.reading.value.units, w.files[RunCommit(s.pc.run)];
              c.costs == k.costs && c.maxCount == w.maxCount && c.budget == w.budget
  {
    var schedule :| Exec(w, first, schedule) == Some(s);
    LedgerRun(w, first, schedule);
    hide Exec, Overlay, G.Inv;
  }

  lemma PassedCompletes(r: G.Reading, g: G.State)
    requires G.Inv(r, g) && G.ValidReading(r) && g.pc.Done?
    ensures g.pc.passed ==> g.pc.completed
    ensures r.Some? ==> |g.units.completed| == |r.value.units.truth| == |g.units.units|
    ensures r.Some? ==> |g.units.completed| == |r.value.contexts|
  {
    hide S.Accounting, S.Launched, S.ResultsFor, G.UnitLog, G.Closing;
  }

  /** The record of fast-forward calls that the engine's theorems speak about is complete:
      it grows by one call, to the promotion's target for the promotion's run, exactly with
      each attempt made before a shutdown. */
  lemma CallsAreRecorded(w: World, s: State, a: Action)
    requires Enabled(w, s, a)
    ensures a.Attempt? ==> s.pc.Promoting?
    ensures Step(w, s, a).promotions ==
            s.promotions + if a.Attempt? && !s.shutdown then [FastForward(s.pc.target, s.pc.run)] else []
  {
    hide Step, Enabled;
    if a.Attempt? { UnfoldEnd(w, s, a); } else { OnlyAttemptPromotes(w, s, a); }
  }

  // ----- who changes a status -----

  ghost predicate Changed(l: Ledger, l': Ledger, p: Place) { (p in l) != (p in l') || (p in l && l[p] != l'[p]) }

  /** What one step may have done to a status that it changed. */
  ghost predicate Explains(s: State, a: Action, p: Place, status: Status) {
    match a
    case Gate(_) => s.pc.Running? && p.commit == RunCommit(s.pc.run)
    case Judge =>
      && s.pc.Running? && p.commit == RunCommit(s.pc.run)
      && (if p.context == Promote then status == Pending && !s.shutdown
          else p.context == Rollup && status == Error
               && s.pc.run.gate.pc.Done? && !s.pc.run.gate.pc.completed && G.WasSuperseded(s.pc.run.gate))
    case Attempt(ok) =>
      && s.pc.Promoting? && p == Place(RunCommit(s.pc.run), Promote) && !s.shutdown
      && (if ok then status == Success else status == Error && s.pc.attempt >= 3)
    case Resolve =>
      && s.pc.Resolving? && s.pc.key in s.inFlight && status == Error
      && p.commit == Commit(KeyRepo(s.pc.key), s.inFlight[s.pc.key]) && p.context in s.pc.contexts
    case Skip =>
      && s.pc.Skipping? && status == Error && p.context == Rollup && p.commit !in s.seen
      && p.commit.repo == RefOf(s.pc.run.origin).repo && p.commit.sha in s.pc.shas
      && p.commit.sha != s.pc.run.sha
    case _ => false
  }

  lemma EndExplains(w: World, s: State, a: Action, p: Place)
    requires Enabled(w, s, a) && Changed(s.ledger, Step(w, s, a).ledger, p)
    requires a.Judge? || a.Attempt? || a.AfterPromotion? || a.Mark?
    ensures p in Step(w, s, a).ledger && Explains(s, a, p, Step(w, s, a).ledger[p])
  {
    hide Step, Enabled, JudgeStep, AttemptStep;
    UnfoldEnd(w, s, a);
    if a.Judge? { JudgeExplains(w, s, p); }
    if a.Attempt? { AttemptExplains(s, a.ok, p); }
  }

  lemma JudgeExplains(w: World, s: State, p: Place)
    requires s.pc.Running? && s.pc.run.gate.pc.Done? && Changed(s.ledger, JudgeStep(w, s).ledger, p)
    ensures p in JudgeStep(w, s).ledger && Explains(s, Judge, p, JudgeStep(w, s).ledger[p])
  {
    hide RunCommit, PromoteTarget, G.WasSuperseded;
    var l, c := JudgeStep(w, s).ledger, RunCommit(s.pc.run);
    assert l == s.ledger || l == s.ledger[Place(c, Rollup) := Error] || l == s.ledger[Place(c, Promote) := Pending];
    assert l == s.ledger[Place(c, Rollup) := Error] || !s.shutdown;
  }

  lemma AttemptExplains(s: State, ok: bool, p: Place)
    requires s.pc.Promoting? && Changed(s.ledger, AttemptStep(s, ok).ledger, p)
    ensures p in AttemptStep(s, ok).ledger && Explains(s, Attempt(ok), p, AttemptStep(s, ok).ledger[p])
  {
    hide RunCommit;
  }

  lemma LeaveExplains(w: World, s: State, a: Action, p: Place)
    requires Enabled(w, s, a) && Changed(s.ledger, Step(w, s, a).ledger, p)
    requires a.ClearSuperseded? || a.Clear? || a.Skip?
    ensures p in Step(w, s, a).ledger && Explains(s, a, p, Step(w, s, a).ledger[p])
  {
    hide Step, Enabled, SkipStep, AfterBranch;
    UnfoldLeave(w, s, a);
    if a.Skip? { SkipExplains(s, p); }
  }

  lemma SkipExplains(s: State, p: Place)
    requires s.pc.Skipping? && s.pc.run.origin.FromBranch? && Changed(s.ledger, SkipStep(s).ledger, p)
    ensures p in SkipStep(s).ledger && Explains(s, Skip, p, SkipStep(s).ledger[p])
  {
    hide AfterBranch;
    var c := Commit(RefOf(s.pc.run.origin).repo, s.pc.shas[0]);
    assert s.pc.shas[0] != s.pc.run.sha && c !in s.seen;
    assert SkipStep(s).ledger == s.ledger[Place(c, Rollup) := Error];
    hide SkipStep;
  }

  lemma BootExplains(w: World, s: State, a: Action, p: Place)
    requires Enabled(w, s, a) && Changed(s.ledger, Step(w, s, a).ledger, p)
    requires a.Reconcile? || a.Resolve? || a.BootDone?
    ensures p in Step(w, s, a).ledger && Explains(s, a, p, Step(w, s, a).ledger[p])
  {
    hide Step, Enabled, Watched;
    UnfoldBoot(w, s, a);
  }

  lemma WithinExplains(w: World, s: State, a: Action, p: Place)
    requires Enabled(w, s, a) && Changed(s.ledger, Step(w, s, a).ledger, p)
    requires a.Move? || a.Shut? || a.Expire? || a.Observe? || a.Fire? || a.Gate?
    ensures p in Step(w, s, a).ledger && Explains(s, a, p, Step(w, s, a).ledger[p])
  {
    hide Step, Enabled, RunCommit, G.Enabled, G.Step;
    UnfoldWithin(w, s, a);
  }

  lemma OthersPostNothing(w: World, s: State, a: Action)
    requires Enabled(w, s, a)
    requires a.LsRemote? || a.Clone? || a.SkipClone? || a.StartBranchRun? || a.StartPull? || a.StartSweep?
             || a.NextRef? || a.PullsDone? || a.LeaveBranch?
    ensures Step(w, s, a).ledger == s.ledger
  {
    hide Step, Enabled, NewRun;
    if a.LsRemote? || a.Clone? || a.SkipClone? {
      UnfoldPoll(w, s, a);
    } else if a.StartBranchRun? || a.StartPull? {
      UnfoldBegin(w, s, a);
    } else {
      UnfoldSweep(w, s, a);
    }
  }

  /** Every status the engine ever changes, step by step. A run's own gate and its
      promotion post on the run's commit; besides them only a superseded run's rollup, the
      statuses that reconciliation resolves and the rollups of skipped commits change, and
      each of those to error. */
  lemma WhoPosts(w: World, s: State, a: Action, p: Place)
    requires Enabled(w, s, a) && Changed(s.ledger, Step(w, s, a).ledger, p)
    ensures p in Step(w, s, a).ledger && Explains(s, a, p, Step(w, s, a).ledger[p])
  {
    hide Step, Enabled, Explains;
    if a.Move? || a.Shut? || a.Expire? || a.Observe? || a.Fire? || a.Gate? {
      WithinExplains(w, s, a, p);
    } else if a.Judge? || a.Attempt? || a.AfterPromotion? || a.Mark? {
      EndExplains(w, s, a, p);
    } else if a.ClearSuperseded? || a.Clear? || a.Skip? {
      LeaveExplains(w, s, a, p);
    } else if a.Reconcile? || a.Resolve? || a.BootDone? {
      BootExplains(w, s, a, p);
    } else {
      OthersPostNothing(w, s, a);
      assert false;
    }
  }

  // ----- limits, in the engine's own terms -----

  /** The costs of the units that hold a slot. */
  ghost function SideBySide(costs: seq<real>, units: seq<S.Unit>): seq<real>
    requires |costs| == |units|
  {
    seq(|units|, k requires 0 <= k < |units| => if S.Live(units[k]) then costs[k] else 0.0)
  }

  /** Whatever runs side by side for a commit keeps to the count cap and to the budget, in
      the costs that the commit's own configuration names. */
  lemma LimitsHold(w: World, first: State, s: State, i: nat, j: nat)
    requires ValidWorld(w) && Starts(first) && Reachable(w, first, s) && s.pc.Running? && s.pc.run.reading.Some?
    requires i < j < |s.pc.run.gate.units.units|
    requires S.Live(s.pc.run.gate.units.units[i]) && S.Live(s.pc.run.gate.units.units[j])
    ensures RunCommit(s.pc.run) in w.files
    ensures var costs, units := w.files[RunCommit(s.pc.run)].costs, s.pc.run.gate.units.units;
            && |units| == |costs|
            && TotalReal(SideBySide(costs, units)) <= w.budget
            && |set k | 0 <= k < |units| && S.Live(units[k])| <= w.maxCount
  {
    hide Reachable, Starts, ValidWorld, G.Inv, G.ValidReading, TotalReal, S.Live, RunCommit;
    RunningFacts(w, first, s);
    UnitsInv(s.pc.run.reading, s.pc.run.gate);
    UnitsWithin(s.pc.run.reading.value.units, s.pc.run.gate.units, i, j);
    hide S.Accounting;
  }

  lemma UnitsWithin(c: S.Config, u: S.State, i: nat, j: nat)
    requires S.ValidConfig(c) && S.Accounting(c, u) && i < j < |u.units| && S.Live(u.units[i]) && S.Live(u.units[j])
    ensures |u.units| == |c.costs|
    ensures TotalReal(SideBySide(c.costs, u.units)) <= c.budget
    ensures |set k | 0 <= k < |u.units| && S.Live(u.units[k])| <= c.maxCount
  {
    S.SideBySideWithinBudget(c, u, i, j);
    hide TotalReal, S.Live, S.Accounting, S.ValidConfig;
    assert S.HeldCosts(c, u.units) == SideBySide(c.costs, u.units);
    assert S.LiveSet(u) == set k | 0 <= k < |u.units| && S.Live(u.units[k]);
  }

  lemma UnitsInv(r: G.Reading, g: G.State)
    requires r.Some? && G.Inv(r, g) && G.ValidReading(r)
    ensures S.ValidConfig(r.value.units) && S.Accounting(r.value.units, g.units)
  {
  }

  // ----- where the engine goes after a run -----

  /** Where a run that is over leads: round again when it was superseded and no shutdown
      is asked for, else back to the caller; a pull request's to the list of those. */
  predicate ComesBack(run: Run, shutdown: bool, next: Pc) {
    match run.origin
    case FromPull(ref, _) => next == Pulls(ref)
    case FromBranch(loop, tip, _) =>
      if run.gate.units.cause.Some? && run.gate.units.cause.value.Superseded? && !shutdown
      then next == Polling(Loop(loop.ref, loop.iteration + 1, loop.since))
      else next == Returned(loop, tip)
  }

  lemma SupersededComesBack(s: State)
    requires s.pc.Superseding? && G.WasSuperseded(s.pc.run.gate)
    ensures var next := ClearSupersededStep(s).pc;
            if s.shutdown then next.Stopped? else ComesBack(s.pc.run, s.shutdown, next)
  {
  }

  lemma BranchComesBack(s: State, run: Run)
    requires run.origin.FromBranch?
    ensures ComesBack(run, s.shutdown, AfterBranch(s, run))
  {
  }

  lemma SkippedComesBack(s: State)
    requires s.pc.Skipping? && s.pc.run.origin.FromBranch? && s.pc.shas == []
    ensures ComesBack(s.pc.run, s.shutdown, SkipStep(s).pc)
  {
    hide ComesBack, AfterBranch;
    BranchComesBack(s, s.pc.run);
  }

  lemma ClearComesBack(w: World, s: State, skipped: seq<Sha>)
    requires s.pc.Clearing?
    ensures var run, next := s.pc.run, ClearStep(w, s, skipped).pc;
            if run.origin.FromBranch? && w.markSkipped && s.pc.prev.Some? && s.pc.prev.value != run.sha
            then next == Skipping(run, skipped) else ComesBack(run, s.shutdown, next)
  {
    hide ComesBack, AfterBranch;
    if s.pc.run.origin.FromBranch? { BranchComesBack(s, s.pc.run); } else { PullComesBack(s.pc.run, s.shutdown); }
  }

  lemma PullComesBack(run: Run, shutdown: bool)
    requires run.origin.FromPull?
    ensures ComesBack(run, shutdown, Pulls(run.origin.ref))
  {
  }

  /** After a run the loop goes round again exactly when the run was superseded and no
      shutdown is asked for, even if it completed; otherwise the call returns. It takes the
      way by the skipped commits exactly when MARK_SKIPPED asks for it and another commit
      was tested before. Only a shutdown at the end of a superseded run stops it there. */
  lemma AfterARun(w: World, first: State, s: State, a: Action)
    requires ValidWorld(w) && Starts(first) && Reachable(w, first, s) && Enabled(w, s, a)
    requires a.ClearSuperseded? || a.Clear? || (a.Skip? && s.pc.Skipping? && s.pc.shas == [])
    ensures var next := Step(w, s, a).pc;
            match a
            case ClearSuperseded =>
              s.pc.Superseding? && if s.shutdown then next.Stopped? else ComesBack(s.pc.run, s.shutdown, next)
            case Clear(skipped) =>
              s.pc.Clearing? &&
              var run := s.pc.run;
              if run.origin.FromBranch? && w.markSkipped && s.pc.prev.Some? && s.pc.prev.value != run.sha
              then next == Skipping(run, skipped) else ComesBack(run, s.shutdown, next)
            case _ => s.pc.Skipping? && ComesBack(s.pc.run, s.shutdown, next)
  {
    hide Step, Enabled, Reachable, ComesBack, ClearSupersededStep, ClearStep, SkipStep, RunOpen;
    UnfoldLeave(w, s, a);
    if a.ClearSuperseded? {
      SupersedingFacts(w, first, s);
      SupersededComesBack(s);
    } else if a.Clear? {
      ClearComesBack(w, s, a.skipped);
    } else {
      SkippedComesBack(s);
    }
  }

  // ----- what supersedes a run -----

  ghost predicate MovedInv(w: World, s: State) {
    s.pc.Running? ==>
      var run := s.pc.run;
      && (run.watch.Some? ==> w.shortCircuit && run.watch.value != run.sha)
      && (run.gate.units.cause.Some? && run.gate.units.cause.value.Superseded? ==>
            run.watch == Some(run.gate.units.cause.value.tip))
  }

  lemma MovedStep(w: World, s: State, a: Action)
    requires MovedInv(w, s) && Enabled(w, s, a)
    ensures MovedInv(w, Step(w, s, a))
  {
    hide Step, Enabled, G.Enabled, G.Step, Posted, RunCommit;
    if s.pc.Running? {
      NotRunningElse(w, s, a);
      if a.Judge? {
        UnfoldEnd(w, s, a);
        JudgedNotRunning(w, s);
      } else {
        UnfoldWithin(w, s, a);
        if a.Gate? { GateKeepsCause(s.pc.run.reading, s.pc.run.gate, a.a); }
      }
    } else if a.StartBranchRun? || a.StartPull? {
      UnfoldBegin(w, s, a);
    } else {
      StepLeads(w, s, a);
    }
  }

  lemma {:induction false} MovedRun(w: World, first: State, schedule: seq<Action>)
    requires Starts(first) && Exec(w, first, schedule).Some?
    ensures MovedInv(w, Exec(w, first, schedule).value)
  {
    hide MovedInv, Step, Enabled;
    if schedule == [] {
      NothingMovedYet(w, first);
    } else {
      var n := |schedule| - 1;
      MovedRun(w, first, schedule[..n]);
      MovedStep(w, Exec(w, first, schedule[..n]).value, schedule[n]);
    }
  }

  lemma NothingMovedYet(w: World, first: State)
    requires Starts(first)
    ensures MovedInv(w, first)
  {
  }

  /** A run is superseded only with short-circuiting on, and only by a tip that is not the
      commit under test. */
  lemma SupersededByAnotherTip(w: World, first: State, s: State)
    requires Starts(first) && Reachable(w, first, s) && s.pc.Running?
    requires s.pc.run.gate.units.cause.Some? && s.pc.run.gate.units.cause.value.Superseded?
    ensures w.shortCircuit && s.pc.run.gate.units.cause.value.tip != s.pc.run.sha
  {
    var schedule :| Exec(w, first, schedule) == Some(s);
    MovedRun(w, first, schedule);
    hide Exec;
  }
}
