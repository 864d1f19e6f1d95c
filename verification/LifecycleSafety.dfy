/** What holds in every reachable state of the engine, under every interleaving of
    unit steps, remote moves, supersession and shutdown. */
module LifecycleSafety {
  import opened Common
  import opened Lifecycle
  import S = Scheduler
  import G = Gate

  // ----- the ledger as a base overlaid by one run's posts -----

  ghost function Overlay(base: Ledger, c: Commit, posts: seq<G.Post>): Ledger {
    if posts == [] then base else
      var last := posts[|posts| - 1];
      Overlay(base, c, posts[..|posts| - 1])[Place(c, last.context) := last.status]
  }

  lemma OverlayAppend(base: Ledger, c: Commit, posts: seq<G.Post>, post: G.Post)
    ensures Overlay(base, c, posts + [post]) == Overlay(base, c, posts)[Place(c, post.context) := post.status]
  {
    assert (posts + [post])[..|posts|] == posts;
  }

  lemma {:induction false} OverlayAt(base: Ledger, c: Commit, posts: seq<G.Post>, p: Place)
    ensures p.commit != c || G.PostsFor(posts, p.context) == [] ==>
              (Open(Overlay(base, c, posts), p) <==> Open(base, p))
    ensures p.commit == c && G.PostsFor(posts, p.context) != [] ==>
              (Open(Overlay(base, c, posts), p) <==> Latest(posts, p.context) == Some(Pending))
  {
    if posts != [] {
      OverlayAt(base, c, posts[..|posts| - 1], p);
    }
  }

  /** The last status posted for a context. */
  ghost function Latest(posts: seq<G.Post>, context: Context): Option<Status> {
    var all := G.PostsFor(posts, context);
    if all == [] then None else Some(all[|all| - 1])
  }

  /** No context is left pending by these posts. */
  ghost predicate Closed(posts: seq<G.Post>) {
    forall context :: Latest(posts, context) != Some(Pending)
  }

  ghost predicate Quiet(l: Ledger, before: set<Place>) {
    forall p | p in l && l[p] == Pending :: p in before
  }

  lemma ClosedIsQuiet(base: Ledger, c: Commit, posts: seq<G.Post>, before: set<Place>)
    requires Quiet(base, before) && Closed(posts)
    ensures Quiet(Overlay(base, c, posts), before)
  {
    var l := Overlay(base, c, posts);
    forall p | p in l && l[p] == Pending ensures p in before {
      OverlayAt(base, c, posts, p);
      assert Latest(posts, p.context) != Some(Pending);
    }
  }

  // ----- the invariant -----

  /** The contexts a run on this commit may post on. */
  ghost predicate Known(w: World, c: Commit, context: Context) {
    context == Rollup || context == Promote || (c in w.files && context in w.files[c].contexts)
  }

  ghost predicate Reads(w: World, c: Commit, r: G.Reading) {
    && G.ValidReading(r)
    && (r.Some? <==> c in w.files)
    && (r.Some? ==>
          && r.value.contexts == w.files[c].contexts && r.value.units.costs == w.files[c].costs
          && r.value.units.maxCount == w.maxCount && r.value.units.budget == w.budget)
  }

  /** Beyond what its gate posted, the run has posted on the promotion's context only. */
  predicate GatePosts(run: Run) {
    && |run.gate.log| <= |run.posts| && run.posts[..|run.gate.log|] == run.gate.log
    && forall k | |run.gate.log| <= k < |run.posts| :: run.posts[k].context == Promote
  }

  /** The part of the engine's state that a run's statuses depend on. */
  datatype View = View(seen: set<Commit>, inFlight: map<Key, Sha>, ledger: Ledger, shutdown: bool)

  function ViewOf(s: State): View { View(s.seen, s.inFlight, s.ledger, s.shutdown) }

  /** A run whose commit has not been marked and whose marker is in place. */
  ghost predicate RunOpen(w: World, v: View, run: Run, before: set<Place>) {
    && RunCommit(run) !in v.seen
    && RunKey(run) in v.inFlight && v.inFlight[RunKey(run)] == run.sha
    && Quiet(run.base, before)
    && v.ledger == Overlay(run.base, RunCommit(run), run.posts)
    && Reads(w, RunCommit(run), run.reading)
    && G.Inv(run.reading, run.gate)
    && (forall k | 0 <= k < |run.posts| :: Known(w, RunCommit(run), run.posts[k].context))
    && (run.gate.units.cause == Some(Shutdown) ==> v.shutdown)
  }

  lemma OpenRunFacts(w: World, v: View, run: Run, before: set<Place>)
    requires RunOpen(w, v, run, before)
    ensures G.Inv(run.reading, run.gate) && G.ValidReading(run.reading)
    ensures run.gate.units.cause == Some(Shutdown) ==> v.shutdown
  {
  }

  ghost predicate MarkedInFlight(inFlight: map<Key, Sha>, c: Commit) {
    exists k :: k in inFlight && inFlight[k] == c.sha && KeyRepo(k) == c.repo
  }

  /** Every pending place was pending before this process, or a marker leads to it. */
  ghost predicate Covered(w: World, v: View, before: set<Place>) {
    forall p | p in v.ledger && v.ledger[p] == Pending ::
      p in before || (MarkedInFlight(v.inFlight, p.commit) && p.commit !in v.seen && Known(w, p.commit, p.context))
  }

  ghost predicate LedgerInv(w: World, s: State, before: set<Place>) {
    match s.pc
    case Running(run) =>
      RunOpen(w, ViewOf(s), run, before) && run.posts == run.gate.log && (s.shutdown ==> run.gate.units.cause.Some?)
    case Superseding(run) =>
      && RunOpen(w, ViewOf(s), run, before) && run.gate.pc == G.Done(false, false)
      && G.WasSuperseded(run.gate) && Closed(run.posts) && run.posts == run.gate.log + [G.Post(Rollup, Error)]
    case Promoting(run, target, _) =>
      && RunOpen(w, ViewOf(s), run, before) && run.gate.pc == G.Done(true, true)
      && PromoteTarget(w, run) == Some(target)
      && run.posts == run.gate.log + [G.Post(Promote, Pending)]
    case Promoted(run) =>
      && RunOpen(w, ViewOf(s), run, before) && run.gate.pc == G.Done(true, true)
      && (Closed(run.posts) || s.shutdown) && GatePosts(run)
    case Marking(run) =>
      && RunOpen(w, ViewOf(s), run, before) && run.gate.pc.Done? && run.gate.pc.completed
      && Closed(run.posts) && GatePosts(run)
    case Stopped => Covered(w, ViewOf(s), before)
    case _ => Quiet(s.ledger, before)
  }

  // ----- what one run adds to the ledger -----

  /** One gate step posts at most one status, on a context of the configuration. */
  lemma GateAppends(w: World, c: Commit, r: G.Reading, g: G.State, a: G.Action)
    requires Reads(w, c, r) && G.Enabled(r, g, a) && (g.pc.Starting? ==> g.log == [])
    requires r.Some? ==> |g.units.units| == |r.value.units.costs| == |r.value.contexts|
    ensures var g' := G.Step(r, g, a);
            g'.log == g.log
            || exists post :: g'.log == g.log + [post] && Known(w, c, post.context)
  {
    var g' := G.Step(r, g, a);
    if a.Read? && r.None? {
      assert g'.log == g.log + [G.Post(Rollup, Error)];
    } else if a.Work? && a.a.Post? {
      assert g'.log == g.log + [G.Post(r.value.contexts[a.a.i], G.Graded(g.units.units[a.a.i].ok))];
    }
  }

  lemma CompletedCloses(r: G.Reading, g: G.State)
    requires G.ValidReading(r) && G.Inv(r, g) && g.pc.Done? && g.pc.completed
    ensures Closed(g.log)
    ensures forall context :: G.PostsFor(g.log, context) != [] ==> context == Rollup || context.Gated?
  {
    if r.Some? {
      G.FinishedFromInv(r.value, g);
      forall context ensures Latest(g.log, context) != Some(Pending)
                     ensures G.PostsFor(g.log, context) != [] ==> context == Rollup || context.Gated? {
        PlanContext(r.value, g, context);
      }
    } else {
      forall context ensures Latest(g.log, context) != Some(Pending)
                     ensures G.PostsFor(g.log, context) != [] ==> context == Rollup || context.Gated? {
        assert G.PostsFor([], context) == [];
      }
    }
  }

  /** What a finished run's log says about any one context. */
  lemma PlanContext(p: G.Plan, g: G.State, context: Context)
    requires G.ValidPlan(p) && G.Finished(p, g)
    ensures context in p.contexts ==> |G.PostsFor(g.log, context)| == 2 && Latest(g.log, context) != Some(Pending)
    ensures context !in p.contexts && context != Rollup ==> G.PostsFor(g.log, context) == []
    ensures context == Rollup && g.pc.completed ==> Latest(g.log, context) != Some(Pending)
  {
    hide G.Finished, G.ValidPlan, G.PostsFor;
    if context in p.contexts {
      var i :| 0 <= i < |p.contexts| && p.contexts[i] == context;
      G.UnitTrace(p, g, i);
    } else {
      G.OtherTrace(p, g, context);
    }
  }

  lemma LatestAppend(posts: seq<G.Post>, post: G.Post, context: Context)
    ensures Latest(posts + [post], context) ==
            if post.context == context then Some(post.status) else Latest(posts, context)
  {
    assert (posts + [post])[..|posts|] == posts;
  }

  /** The rollup the caller adds closes a superseded run. */
  lemma SupersededCloses(r: G.Reading, g: G.State)
    requires G.ValidReading(r) && G.Inv(r, g) && g.pc.Done? && !g.pc.completed && G.WasSuperseded(g)
    ensures Closed(g.log + [G.Post(Rollup, Error)])
  {
    G.FinishedFromInv(r.value, g);
    forall context ensures Latest(g.log + [G.Post(Rollup, Error)], context) != Some(Pending) {
      PlanContext(r.value, g, context);
      LatestAppend(g.log, G.Post(Rollup, Error), context);
    }
  }

  /** A promotion's terminal status closes it again. */
  lemma PromotionCloses(log: seq<G.Post>, status: Status)
    requires Closed(log) && status != Pending
    ensures Closed(log + [G.Post(Promote, Pending)] + [G.Post(Promote, status)])
  {
    forall context
      ensures Latest(log + [G.Post(Promote, Pending)] + [G.Post(Promote, status)], context) != Some(Pending)
    {
      LatestAppend(log, G.Post(Promote, Pending), context);
      LatestAppend(log + [G.Post(Promote, Pending)], G.Post(Promote, status), context);
      assert Latest(log, context) != Some(Pending);
    }
  }

  lemma RunCovered(w: World, v: View, run: Run, before: set<Place>)
    requires RunOpen(w, v, run, before)
    ensures Covered(w, v, before)
  {
    hide G.Inv;
    var c := RunCommit(run);
    forall p | p in v.ledger && v.ledger[p] == Pending
      ensures p in before
              || (MarkedInFlight(v.inFlight, p.commit) && p.commit !in v.seen && Known(w, p.commit, p.context))
    {
      OverlayAt(run.base, c, run.posts, p);
      if p !in before {
        assert p.commit == c && G.PostsFor(run.posts, p.context) != [];
        PostedSomewhere(run.posts, p.context);
        assert KeyRepo(RunKey(run)) == c.repo;
      }
    }
  }

  lemma {:induction false} PostedSomewhere(posts: seq<G.Post>, context: Context)
    requires G.PostsFor(posts, context) != []
    ensures exists k :: 0 <= k < |posts| && posts[k].context == context
  {
    var n := |posts| - 1;
    if posts[n].context != context {
      PostedSomewhere(posts[..n], context);
      var k :| 0 <= k < |posts[..n]| && posts[..n][k].context == context;
      assert posts[k].context == context;
    }
  }

  // ----- every step keeps the ledger invariant -----

  lemma ReadingIsValid(w: World, c: Commit, truth: seq<bool>)
    requires ValidWorld(w) && FitsTruth(w, c, truth)
    ensures Reads(w, c, ReadingOf(w, c, truth))
  {
  }

  lemma NewRunIsOpen(w: World, s: State, o: Origin, sha: Sha, truth: seq<bool>, before: set<Place>)
    requires ValidWorld(w) && Quiet(s.ledger, before)
    requires Commit(RefOf(o).repo, sha) !in s.seen && FitsTruth(w, Commit(RefOf(o).repo, sha), truth)
    ensures var run := NewRun(w, s, o, sha, truth);
            && RunOpen(w, ViewOf(s).(inFlight := s.inFlight[RunKey(run) := run.sha]), run, before)
            && run.posts == run.gate.log
            && (s.shutdown ==> run.gate.units.cause.Some?)
  {
    hide G.Inv;
    var c := Commit(RefOf(o).repo, sha);
    var reading := ReadingOf(w, c, truth);
    ReadingIsValid(w, c, truth);
    G.InitInv(reading);
    if s.shutdown { G.StepInv(reading, G.Init(reading), G.Cancel(Shutdown)); }
    assert (G.Init(reading).units).cause == None;
  }

  lemma BeginKeeps(w: World, s: State, a: Action, before: set<Place>)
    requires ValidWorld(w) && LedgerInv(w, s, before) && Enabled(w, s, a) && (a.StartBranchRun? || a.StartPull?)
    ensures LedgerInv(w, Step(w, s, a), before)
  {
    hide RunOpen, G.Init;
    match a
    case StartBranchRun(truth) =>
      NewRunIsOpen(w, s, FromBranch(s.pc.loop, s.pc.tip, s.pc.at), s.pc.sha, truth, before);
    case StartPull(n, sha, truth) =>
      NewRunIsOpen(w, s, FromPull(s.pc.ref, n), sha, truth, before);
  }

  lemma CancelKeepsRun(w: World, v: View, run: Run, cause: Cause, shutdown: bool, before: set<Place>)
    requires RunOpen(w, v, run, before) && shutdown == (v.shutdown || cause == Shutdown)
    ensures var gate := run.gate.(units := run.gate.units.(cause := FirstCause(run.gate.units.cause, cause)));
            RunOpen(w, v.(shutdown := shutdown), run.(gate := gate), before)
  {
    InvSized(run.reading, run.gate);
    hide G.Inv, Overlay, Quiet;
    G.StepInv(run.reading, run.gate, G.Cancel(cause));
    CancelStep(run.reading, run.gate, cause);
  }

  lemma InvSized(r: G.Reading, g: G.State)
    requires G.Inv(r, g) && G.ValidReading(r)
    ensures r.Some? ==> |g.units.units| == |r.value.units.costs| == |r.value.contexts|
  {
  }

  lemma CancelStep(r: G.Reading, g: G.State, cause: Cause)
    requires r.Some? ==> |g.units.units| == |r.value.units.costs| == |r.value.contexts|
    ensures G.Step(r, g, G.Cancel(cause)) == g.(units := g.units.(cause := FirstCause(g.units.cause, cause)))
  {
  }

  lemma CancelKeeps(w: World, s: State, cause: Cause, shutdown: bool, before: set<Place>)
    requires LedgerInv(w, s, before) && shutdown == (s.shutdown || cause == Shutdown)
    ensures LedgerInv(w, Cancelled(s.(shutdown := shutdown), cause), before)
  {
    if s.pc.Running? {
      CancelKeepsRun(w, ViewOf(s), s.pc.run, cause, shutdown, before);
      hide RunOpen;
    } else {
      ShutKeepsOthers(w, s, shutdown, before);
    }
  }

  lemma ShutKeepsOthers(w: World, s: State, shutdown: bool, before: set<Place>)
    requires LedgerInv(w, s, before) && !s.pc.Running? && (s.shutdown ==> shutdown)
    ensures LedgerInv(w, s.(shutdown := shutdown), before)
  {
    hide G.Inv, Overlay, Closed;
  }

  lemma WithGateKeeps(w: World, s: State, gate: G.State, before: set<Place>)
    requires s.pc.Running? && LedgerInv(w, s, before)
    requires G.Inv(s.pc.run.reading, gate) && gate.units.cause == s.pc.run.gate.units.cause
    requires gate.log == s.pc.run.gate.log
             || exists post :: gate.log == s.pc.run.gate.log + [post] && Known(w, RunCommit(s.pc.run), post.context)
    ensures LedgerInv(w, WithGate(s, gate), before)
  {
    hide G.Inv, Known, Open, Quiet, Reads;
    var run := s.pc.run;
    if gate.log != run.gate.log {
      var post :| gate.log == run.gate.log + [post] && Known(w, RunCommit(run), post.context);
      OverlayAppend(run.base, RunCommit(run), run.posts, post);
    }
  }

  lemma GateKeepsCause(r: G.Reading, g: G.State, a: G.Action)
    requires G.Enabled(r, g, a) && !a.Cancel?
    requires r.Some? ==> |g.units.units| == |r.value.units.costs| == |r.value.contexts|
    ensures G.Step(r, g, a).units.cause == g.units.cause
  {
  }

  lemma GateStartsEmpty(r: G.Reading, g: G.State)
    requires G.Inv(r, g)
    ensures g.pc.Starting? ==> g.log == []
  {
  }

  lemma GateKeeps(w: World, s: State, g: G.Action, before: set<Place>)
    requires LedgerInv(w, s, before) && s.pc.Running? && !g.Cancel?
    requires G.Enabled(s.pc.run.reading, s.pc.run.gate, g) && Sized(s.pc.run)
    ensures LedgerInv(w, GateStep(s, g), before)
  {
    var run := s.pc.run;
    var gate := G.Step(run.reading, run.gate, g);
    GateFacts(w, s, before);
    hide LedgerInv, G.Inv, G.Step, G.Enabled, Reads;
    G.StepInv(run.reading, run.gate, g);
    GateStartsEmpty(run.reading, run.gate);
    GateAppends(w, RunCommit(run), run.reading, run.gate, g);
    GateKeepsCause(run.reading, run.gate, g);
    WithGateKeeps(w, s, gate, before);
  }

  lemma GateFacts(w: World, s: State, before: set<Place>)
    requires LedgerInv(w, s, before) && s.pc.Running?
    ensures G.Inv(s.pc.run.reading, s.pc.run.gate) && G.ValidReading(s.pc.run.reading)
    ensures Reads(w, RunCommit(s.pc.run), s.pc.run.reading) && s.pc.run.posts == s.pc.run.gate.log
    ensures s.pc.run.gate.pc.Starting? ==> s.pc.run.gate.log == []
    ensures RunCommit(s.pc.run) !in s.seen
  {
    hide G.Inv, Overlay;
    GateStartsEmpty(s.pc.run.reading, s.pc.run.gate);
  }

  lemma PostKeepsRunOpen(w: World, s: State, run: Run, post: G.Post, before: set<Place>)
    requires RunOpen(w, ViewOf(s), run, before) && Known(w, RunCommit(run), post.context)
    ensures RunOpen(w, ViewOf(s).(ledger := Posted(s, RunCommit(run), post)), PostOn(run, post), before)
  {
    hide G.Inv;
    OverlayAppend(run.base, RunCommit(run), run.posts, post);
  }

  /** An incomplete run was cancelled, so unless it was superseded the engine is stopping. */
  lemma IncompleteMeansCut(r: G.Reading, g: G.State)
    requires G.Inv(r, g) && g.pc.Done?
    ensures g.pc.passed ==> g.pc.completed
    ensures !g.pc.completed ==> g.pc == G.Done(false, false) && g.units.cause.Some?
  {
  }

  lemma JudgeSuperseded(w: World, s: State, before: set<Place>)
    requires LedgerInv(w, s, before) && s.pc.Running? && s.pc.run.gate.pc.Done?
    requires G.WasSuperseded(s.pc.run.gate) && !s.pc.run.gate.pc.completed
    ensures LedgerInv(w, JudgeStep(w, s), before)
  {
    hide G.Inv, RunOpen, Overlay;
    var run := s.pc.run;
    assert G.Inv(run.reading, run.gate) && G.ValidReading(run.reading) by { OpenRunFacts(w, ViewOf(s), run, before); }
    SupersededCloses(run.reading, run.gate);
    IncompleteMeansCut(run.reading, run.gate);
    PostKeepsRunOpen(w, s, run, G.Post(Rollup, Error), before);
  }

  lemma JudgeStops(w: World, s: State, before: set<Place>)
    requires s.pc.Running? && s.pc.run.gate.pc.Done? && RunOpen(w, ViewOf(s), s.pc.run, before) && s.shutdown
    requires !(G.WasSuperseded(s.pc.run.gate) && !s.pc.run.gate.pc.completed)
    ensures LedgerInv(w, JudgeStep(w, s), before)
  {
    hide RunOpen, Covered, G.WasSuperseded, PromoteTarget, Posted;
    RunCovered(w, ViewOf(s), s.pc.run, before);
    assert ViewOf(JudgeStep(w, s)) == ViewOf(s);
  }

  lemma JudgeGoesOn(w: World, s: State, before: set<Place>)
    requires s.pc.Running? && s.pc.run.gate.pc.Done? && RunOpen(w, ViewOf(s), s.pc.run, before) && !s.shutdown
    requires s.pc.run.posts == s.pc.run.gate.log && s.pc.run.gate.pc.completed
    requires s.pc.run.gate.pc.passed ==> s.pc.run.gate.pc == G.Done(true, true)
    requires G.Inv(s.pc.run.reading, s.pc.run.gate) && G.ValidReading(s.pc.run.reading)
    ensures LedgerInv(w, JudgeStep(w, s), before)
  {
    hide G.Inv, RunOpen, Overlay, Closed, G.WasSuperseded, G.ValidReading;
    var run := s.pc.run;
    CompletedCloses(run.reading, run.gate);
    PostKeepsRunOpen(w, s, run, G.Post(Promote, Pending), before);
  }

  lemma JudgeKeeps(w: World, s: State, before: set<Place>)
    requires LedgerInv(w, s, before) && s.pc.Running? && s.pc.run.gate.pc.Done?
    ensures LedgerInv(w, JudgeStep(w, s), before)
  {
    hide G.Inv, RunOpen, Overlay, Closed;
    var run := s.pc.run;
    OpenRunFacts(w, ViewOf(s), run, before);
    IncompleteMeansCut(run.reading, run.gate);
    hide G.ValidReading;
    if G.WasSuperseded(run.gate) && !run.gate.pc.completed {
      JudgeSuperseded(w, s, before);
    } else if s.shutdown {
      JudgeStops(w, s, before);
    } else {
      JudgeGoesOn(w, s, before);
    }
  }

  /** The last attempt, which posts how the promotion went. */
  lemma PromotionEnds(w: World, s: State, run: Run, status: Status, before: set<Place>)
    requires RunOpen(w, ViewOf(s), run, before) && run.gate.pc == G.Done(true, true) && status != Pending
    requires run.posts == run.gate.log + [G.Post(Promote, Pending)]
    ensures var post := G.Post(Promote, status);
            RunOpen(w, ViewOf(s).(ledger := Posted(s, RunCommit(run), post)), PostOn(run, post), before)
            && Closed(PostOn(run, post).posts)
  {
    OpenRunFacts(w, ViewOf(s), run, before);
    CompletedCloses(run.reading, run.gate);
    PromotionCloses(run.gate.log, status);
    PostKeepsRunOpen(w, s, run, G.Post(Promote, status), before);
    hide G.Inv, RunOpen, Overlay, Closed;
  }

  lemma AttemptKeeps(w: World, s: State, ok: bool, before: set<Place>)
    requires LedgerInv(w, s, before) && s.pc.Promoting?
    ensures LedgerInv(w, AttemptStep(s, ok), before)
  {
    hide G.Inv, RunOpen, Overlay, Closed, Posted, Covered, Quiet, PromoteTarget;
    var run, s' := s.pc.run, AttemptStep(s, ok);
    if !s.shutdown && (ok || s.pc.attempt >= 3) {
      var status := if ok then Success else Error;
      PromotionEnds(w, s, run, status, before);
      assert s'.pc == Promoted(PostOn(run, G.Post(Promote, status)));
      assert ViewOf(s') == ViewOf(s).(ledger := Posted(s, RunCommit(run), G.Post(Promote, status)));
    } else {
      assert ViewOf(s') == ViewOf(s);
    }
  }

  lemma ClearSupersededKeeps(w: World, s: State, before: set<Place>)
    requires LedgerInv(w, s, before) && s.pc.Superseding?
    ensures LedgerInv(w, ClearSupersededStep(s), before)
  {
    hide RunOpen, Closed, Quiet, Covered, RunCommit, Overlay, G.WasSuperseded;
    var run, s' := s.pc.run, ClearSupersededStep(s);
    RunOpenLedger(w, ViewOf(s), run, before);
    ClosedIsQuiet(run.base, RunCommit(run), run.posts, before);
    assert s'.ledger == s.ledger;
    QuietCovers(w, ViewOf(s'), before);
  }

  lemma QuietCovers(w: World, v: View, before: set<Place>)
    ensures Quiet(v.ledger, before) ==> Covered(w, v, before)
  {
  }

  lemma RunOpenLedger(w: World, v: View, run: Run, before: set<Place>)
    requires RunOpen(w, v, run, before)
    ensures Quiet(run.base, before) && v.ledger == Overlay(run.base, RunCommit(run), run.posts)
    ensures RunCommit(run) !in v.seen
  {
    hide G.Inv, Overlay;
  }

  lemma MarkKeeps(w: World, s: State, before: set<Place>)
    requires LedgerInv(w, s, before) && s.pc.Marking?
    ensures LedgerInv(w, MarkStep(s), before)
  {
    hide RunOpen, Closed, Quiet, Covered, RunCommit, Overlay;
    var run := s.pc.run;
    RunOpenLedger(w, ViewOf(s), run, before);
    ClosedIsQuiet(run.base, RunCommit(run), run.posts, before);
    assert MarkStep(s).ledger == s.ledger;
  }

  lemma AfterPromotionKeeps(w: World, s: State, before: set<Place>)
    requires LedgerInv(w, s, before) && s.pc.Promoted?
    ensures LedgerInv(w, s.(pc := if s.shutdown then Stopped else Marking(s.pc.run)), before)
  {
    RunCovered(w, ViewOf(s), s.pc.run, before);
  }

  lemma ClearKeeps(w: World, s: State, skipped: seq<Sha>, before: set<Place>)
    requires LedgerInv(w, s, before) && s.pc.Clearing?
    ensures LedgerInv(w, ClearStep(w, s, skipped), before)
  {
  }

  lemma SkipKeeps(w: World, s: State, before: set<Place>)
    requires LedgerInv(w, s, before) && s.pc.Skipping? && s.pc.run.origin.FromBranch?
    ensures LedgerInv(w, SkipStep(s), before)
  {
    hide RunOpen, Covered, Closed, GatePosts, G.WasSuperseded;
  }

  lemma ReconcileKeeps(w: World, s: State, a: Action, before: set<Place>)
    requires s.pc.Boot? && a.Reconcile? && a.key in s.inFlight && Quiet(s.ledger, before)
    requires a.key.BranchKey? && a.lsOk ==> a.key in s.heads
    ensures LedgerInv(w, ReconcileStep(w, s, a.key, a.lsOk, a.listed), before)
  {
    hide Quiet, Watched;
  }

  lemma ResolveKeeps(w: World, s: State, before: set<Place>)
    requires s.pc.Resolving? && s.pc.key in s.inFlight && Quiet(s.ledger, before)
    ensures LedgerInv(w, ResolveStep(s), before)
  {
  }

  lemma BootKeeps(w: World, s: State, a: Action, before: set<Place>)
    requires LedgerInv(w, s, before) && Enabled(w, s, a) && (a.Reconcile? || a.Resolve? || a.BootDone?)
    ensures LedgerInv(w, Step(w, s, a), before)
  {
    hide Step, Enabled, Watched, Quiet, ReconcileStep, ResolveStep;
    UnfoldBoot(w, s, a);
    if a.Reconcile? { ReconcileKeeps(w, s, a, before); }
    if a.Resolve? { ResolveKeeps(w, s, before); }
  }

  lemma LsRemoteKeeps(w: World, s: State, ok: bool, before: set<Place>)
    requires s.pc.Polling? && (ok ==> BranchKey(s.pc.loop.ref) in s.heads) && Quiet(s.ledger, before)
    ensures LedgerInv(w, LsRemoteStep(s, ok), before)
  {
    hide Quiet;
  }

  lemma CloneKeeps(w: World, s: State, ok: bool, before: set<Place>)
    requires s.pc.Sampled? && (ok ==> BranchKey(s.pc.loop.ref) in s.heads) && Quiet(s.ledger, before)
    ensures LedgerInv(w, CloneStep(s, ok), before)
  {
    hide Quiet;
  }

  lemma SweepKeeps(w: World, s: State, a: Action, before: set<Place>)
    requires LedgerInv(w, s, before) && Enabled(w, s, a)
    requires a.StartSweep? || a.NextRef? || a.LsRemote? || a.Clone? || a.SkipClone? || a.PullsDone?
             || a.LeaveBranch?
    ensures LedgerInv(w, Step(w, s, a), before)
  {
    hide Step, Enabled, RunOpen, Quiet, LsRemoteStep, CloneStep;
    if a.LsRemote? || a.Clone? || a.SkipClone? {
      UnfoldPoll(w, s, a);
      if a.LsRemote? { LsRemoteKeeps(w, s, a.ok, before); }
      if a.Clone? { CloneKeeps(w, s, a.ok, before); }
    } else {
      UnfoldSweep(w, s, a);
    }
  }

  lemma ExpireKeeps(w: World, s: State, gone: set<Commit>, before: set<Place>)
    requires LedgerInv(w, s, before)
    ensures LedgerInv(w, s.(seen := s.seen - gone), before)
  {
    hide G.Inv, Overlay, Closed;
  }

  lemma EnvironmentKeeps(w: World, s: State, a: Action, before: set<Place>)
    requires LedgerInv(w, s, before) && Enabled(w, s, a) && (a.Move? || a.Observe?)
    ensures LedgerInv(w, Step(w, s, a), before)
  {
    hide Step, Enabled, G.Inv, Overlay;
    UnfoldWithin(w, s, a);
  }

  lemma WithinKeeps(w: World, s: State, a: Action, before: set<Place>)
    requires LedgerInv(w, s, before) && Enabled(w, s, a)
    requires a.Move? || a.Expire? || a.Shut? || a.Fire? || a.Gate? || a.Observe?
    ensures LedgerInv(w, Step(w, s, a), before)
  {
    hide Step, Enabled, LedgerInv, G.Enabled;
    UnfoldWithin(w, s, a);
    match a
    case Move(_, _) => EnvironmentKeeps(w, s, a, before);
    case Observe => EnvironmentKeeps(w, s, a, before);
    case Expire(gone) => ExpireKeeps(w, s, gone, before);
    case Shut => CancelKeeps(w, s, Shutdown, true, before);
    case Fire => CancelKeeps(w, s, Superseded(s.pc.run.watch.value), s.shutdown, before);
    case Gate(g) => GateKeeps(w, s, g, before);
  }

  lemma EndKeeps(w: World, s: State, a: Action, before: set<Place>)
    requires LedgerInv(w, s, before) && Enabled(w, s, a)
    requires a.Judge? || a.Attempt? || a.AfterPromotion? || a.Mark?
    ensures LedgerInv(w, Step(w, s, a), before)
  {
    hide Step, Enabled, LedgerInv, JudgeStep, AttemptStep, MarkStep;
    UnfoldEnd(w, s, a);
    match a
    case Judge => JudgeKeeps(w, s, before);
    case Attempt(ok) => AttemptKeeps(w, s, ok, before);
    case AfterPromotion => AfterPromotionKeeps(w, s, before);
    case Mark => MarkKeeps(w, s, before);
  }

  lemma LeaveKeeps(w: World, s: State, a: Action, before: set<Place>)
    requires LedgerInv(w, s, before) && Enabled(w, s, a) && (a.ClearSuperseded? || a.Clear? || a.Skip?)
    ensures LedgerInv(w, Step(w, s, a), before)
  {
    hide Step, Enabled, LedgerInv, ClearSupersededStep, ClearStep, SkipStep;
    UnfoldLeave(w, s, a);
    match a
    case ClearSuperseded => ClearSupersededKeeps(w, s, before);
    case Clear(skipped) => ClearKeeps(w, s, skipped, before);
    case Skip => SkipKeeps(w, s, before);
  }

  lemma LedgerStep(w: World, s: State, a: Action, before: set<Place>)
    requires ValidWorld(w) && LedgerInv(w, s, before) && Enabled(w, s, a)
    ensures LedgerInv(w, Step(w, s, a), before)
  {
    hide Step, Enabled, LedgerInv;
    if a.Move? || a.Expire? || a.Shut? || a.Fire? || a.Gate? || a.Observe? {
      WithinKeeps(w, s, a, before);
    } else if a.Judge? || a.Attempt? || a.AfterPromotion? || a.Mark? {
      EndKeeps(w, s, a, before);
    } else if a.ClearSuperseded? || a.Clear? || a.Skip? {
      LeaveKeeps(w, s, a, before);
    } else if a.Reconcile? || a.Resolve? || a.BootDone? {
      BootKeeps(w, s, a, before);
    } else if a.StartBranchRun? || a.StartPull? {
      BeginKeeps(w, s, a, before);
    } else {
      SweepKeeps(w, s, a, before);
    }
  }

  ghost function OpenPlaces(l: Ledger): set<Place> { set p | p in l && l[p] == Pending }

  lemma {:induction false} LedgerRun(w: World, first: State, schedule: seq<Action>)
    requires ValidWorld(w) && Starts(first) && Exec(w, first, schedule).Some?
    ensures LedgerInv(w, Exec(w, first, schedule).value, OpenPlaces(first.ledger))
  {
    if schedule != [] {
      var n := |schedule| - 1;
      LedgerRun(w, first, schedule[..n]);
      LedgerStep(w, Exec(w, first, schedule[..n]).value, schedule[n], OpenPlaces(first.ledger));
    }
  }

  lemma LedgerInvCovers(w: World, s: State, before: set<Place>)
    requires LedgerInv(w, s, before)
    ensures Covered(w, ViewOf(s), before)
  {
    hide RunOpen;
    match s.pc
    case Running(run) => RunCovered(w, ViewOf(s), run, before);
    case Superseding(run) => RunCovered(w, ViewOf(s), run, before);
    case Promoting(run, _, _) => RunCovered(w, ViewOf(s), run, before);
    case Promoted(run) => RunCovered(w, ViewOf(s), run, before);
    case Marking(run) => RunCovered(w, ViewOf(s), run, before);
    case _ =>
  }

  /** No leaked pending within a process lifetime. In every reachable state, a context
      left pending since the process started belongs to a commit that some in-flight
      marker names and that is not marked seen, so a restart will find it. */
  lemma NoLeakedPending(w: World, first: State, s: State, p: Place)
    requires ValidWorld(w) && Starts(first) && Reachable(w, first, s)
    requires p in s.ledger && s.ledger[p] == Pending
    requires !(p in first.ledger && first.ledger[p] == Pending)
    ensures exists k :: k in s.inFlight && s.inFlight[k] == p.commit.sha && KeyRepo(k) == p.commit.repo
    ensures p.commit !in s.seen && Known(w, p.commit, p.context)
  {
    var schedule :| Exec(w, first, schedule) == Some(s);
    LedgerRun(w, first, schedule);
    LedgerInvCovers(w, s, OpenPlaces(first.ledger));
    assert MarkedInFlight(s.inFlight, p.commit);
  }

  /** Between two refs nothing the process has posted is pending. */
  lemma IdleLeavesNothingPending(w: World, first: State, s: State, p: Place)
    requires ValidWorld(w) && Starts(first) && Reachable(w, first, s) && s.pc.Idle?
    requires p in s.ledger && s.ledger[p] == Pending
    ensures p in first.ledger && first.ledger[p] == Pending
  {
    var schedule :| Exec(w, first, schedule) == Some(s);
    LedgerRun(w, first, schedule);
  }

  // ----- promotion -----

  /** The evidence behind a FastForwardRef call. */
  ghost predicate Justified(w: World, f: FastForward) {
    && f.run.gate.pc == G.Done(true, true)
    && PromoteTarget(w, f.run) == Some(f.target)
    && Reads(w, RunCommit(f.run), f.run.reading)
    && G.Inv(f.run.reading, f.run.gate)
  }

  lemma AttemptIsJustified(w: World, s: State, before: set<Place>)
    requires LedgerInv(w, s, before) && s.pc.Promoting?
    ensures Justified(w, FastForward(s.pc.target, s.pc.run))
  {
    hide G.Inv, Overlay;
  }

  lemma PromotionsStep(w: World, s: State, a: Action, before: set<Place>)
    requires LedgerInv(w, s, before) && Enabled(w, s, a)
    requires forall f | f in s.promotions :: Justified(w, f)
    ensures forall f | f in Step(w, s, a).promotions :: Justified(w, f)
  {
    hide Justified, LedgerInv, Step, Enabled;
    if a.Attempt? {
      UnfoldEnd(w, s, a);
      AttemptIsJustified(w, s, before);
      assert forall f | f in AttemptStep(s, a.ok).promotions ::
          f in s.promotions || f == FastForward(s.pc.target, s.pc.run);
    } else {
      OnlyAttemptPromotes(w, s, a);
    }
  }

  lemma OnlyAttemptPromotes(w: World, s: State, a: Action)
    requires Enabled(w, s, a) && !a.Attempt?
    ensures Step(w, s, a).promotions == s.promotions
  {
    hide Step, Enabled, ReconcileStep, ResolveStep, GateStep, JudgeStep, ClearSupersededStep, ClearStep, SkipStep;
    hide LsRemoteStep, CloneStep, Begin, Cancelled, MarkStep, NewRun, G.Enabled;
    if a.Move? || a.Shut? || a.Expire? || a.Observe? || a.Fire? || a.Gate? {
      UnfoldWithin(w, s, a);
    } else if a.Judge? || a.AfterPromotion? || a.Mark? {
      UnfoldEnd(w, s, a);
    } else if a.ClearSuperseded? || a.Clear? || a.Skip? {
      UnfoldLeave(w, s, a);
    } else if a.Reconcile? || a.Resolve? || a.BootDone? {
      UnfoldBoot(w, s, a);
    } else if a.LsRemote? || a.Clone? || a.SkipClone? {
      UnfoldPoll(w, s, a);
    } else if a.StartBranchRun? || a.StartPull? {
      UnfoldBegin(w, s, a);
    } else {
      UnfoldSweep(w, s, a);
    }
  }

  lemma OnlyMarkingMarks(w: World, s: State, a: Action)
    requires Enabled(w, s, a) && !a.Mark? && !a.SkipClone?
    ensures Step(w, s, a).seen <= s.seen
  {
    hide Step, Enabled, ReconcileStep, ResolveStep, GateStep, JudgeStep, ClearSupersededStep, ClearStep, SkipStep;
    hide LsRemoteStep, CloneStep, Begin, Cancelled, AttemptStep, NewRun, G.Enabled;
    if a.Move? || a.Shut? || a.Expire? || a.Observe? || a.Fire? || a.Gate? {
      UnfoldWithin(w, s, a);
    } else if a.Judge? || a.Attempt? || a.AfterPromotion? {
      UnfoldEnd(w, s, a);
    } else if a.ClearSuperseded? || a.Clear? || a.Skip? {
      UnfoldLeave(w, s, a);
    } else if a.Reconcile? || a.Resolve? || a.BootDone? {
      UnfoldBoot(w, s, a);
    } else if a.LsRemote? || a.Clone? {
      UnfoldPoll(w, s, a);
    } else if a.StartBranchRun? || a.StartPull? {
      UnfoldBegin(w, s, a);
    } else {
      UnfoldSweep(w, s, a);
    }
  }

  lemma {:induction false} PromotionsRun(w: World, first: State, schedule: seq<Action>)
    requires ValidWorld(w) && Starts(first) && Exec(w, first, schedule).Some?
    ensures forall f | f in Exec(w, first, schedule).value.promotions :: Justified(w, f)
  {
    if schedule != [] {
      var n := |schedule| - 1;
      PromotionsRun(w, first, schedule[..n]);
      LedgerRun(w, first, schedule[..n]);
      PromotionsStep(w, Exec(w, first, schedule[..n]).value, schedule[n], OpenPlaces(first.ledger));
    }
  }

  /** Untested code is never promoted: in every run of the engine, a fast-forward is
      issued only for a watched-branch run of a commit whose configuration names at
      least one gate step and that target, after every one of its units ran to its end
      uncancelled and succeeded. */
  lemma NeverPromoteUntested(w: World, first: State, s: State, f: FastForward)
    requires ValidWorld(w) && Starts(first) && Reachable(w, first, s) && f in s.promotions
    ensures f.run.origin.FromBranch? && f.target != f.run.origin.loop.ref.branch
    ensures RunCommit(f.run) in w.files && w.files[RunCommit(f.run)].promoteTo == Some(f.target)
    ensures var units := f.run.gate.units.units;
            && |units| == |w.files[RunCommit(f.run)].contexts| > 0
            && f.run.reading.Some? && |f.run.reading.value.units.truth| == |units|
            && forall i | 0 <= i < |units| :: units[i] == S.Finished(true) && f.run.reading.value.units.truth[i]
  {
    var schedule :| Exec(w, first, schedule) == Some(s);
    PromotionsRun(w, first, schedule);
    assert Justified(w, f);
    G.PassedMeansAllOk(f.run.reading, f.run.gate);
    hide Exec;
    G.DoneCounts(f.run.reading.value, f.run.gate);
    AllUnits(f.run.reading.value, f.run.gate);
    hide G.PlanInv;
  }

  lemma AllUnits(p: G.Plan, g: G.State)
    requires G.ValidPlan(p) && G.PlanInv(p, g)
    ensures |g.units.units| == |p.contexts| == |p.units.truth| > 0
  {
    hide S.Accounting, S.Launched, S.ResultsFor, G.LogInv;
  }

  // ----- what gets marked seen -----

  lemma MarkingIsDone(w: World, first: State, s: State)
    requires ValidWorld(w) && Starts(first) && Reachable(w, first, s) && s.pc.Marking?
    ensures s.pc.run.gate.pc.Done? && s.pc.run.gate.pc.completed
  {
    hide RunOpen;
    var schedule :| Exec(w, first, schedule) == Some(s);
    assert LedgerInv(w, s, OpenPlaces(first.ledger)) by { LedgerRun(w, first, schedule); }
    hide Exec;
  }

  /** A commit is newly marked seen exactly when its own run, of a branch or of a pull
      request, has just completed, or it is the sampled tip and the clone produced a
      different commit. */
  lemma MarkedMeansFinished(w: World, first: State, s: State, a: Action, c: Commit)
    requires ValidWorld(w) && Starts(first) && Reachable(w, first, s) && Enabled(w, s, a)
    requires c !in s.seen
    ensures a.Mark? ==> s.pc.Marking? && s.pc.run.gate.pc.Done? && s.pc.run.gate.pc.completed
    ensures a.SkipClone? ==> s.pc.Cloned?
    ensures c in Step(w, s, a).seen <==>
            || (a.Mark? && c == RunCommit(s.pc.run))
            || (a.Mark? && s.pc.run.origin.FromBranch?
                && c == Commit(RefOf(s.pc.run.origin).repo, s.pc.run.origin.tip) && s.pc.run.origin.tip != s.pc.run.sha)
            || (a.SkipClone? && c == Commit(s.pc.loop.ref.repo, s.pc.tip) && s.pc.tip != s.pc.sha)
  {
    hide Step, Enabled, Reachable, Starts, ValidWorld;
    if a.Mark? {
      UnfoldEnd(w, s, a);
      MarkingIsDone(w, first, s);
    } else if a.SkipClone? {
      UnfoldPoll(w, s, a);
    } else {
      OnlyMarkingMarks(w, s, a);
    }
  }

  /** A run cut short is never marked: when its marker is cleared its commit is still
      not seen, so a branch that returns to it is tested for real. */
  lemma CutRunsStayUnmarked(w: World, first: State, s: State)
    requires ValidWorld(w) && Starts(first) && Reachable(w, first, s) && s.pc.Superseding?
    ensures s.pc.run.gate.pc == G.Done(false, false)
    ensures RunCommit(s.pc.run) !in Step(w, s, ClearSuperseded).seen
  {
    hide Step, Enabled, G.Inv, Overlay, Closed, Starts;
    var schedule :| Exec(w, first, schedule) == Some(s);
    LedgerRun(w, first, schedule);
    UnfoldLeave(w, s, ClearSuperseded);
    RunOpenLedger(w, ViewOf(s), s.pc.run, OpenPlaces(first.ledger));
    hide RunOpen, ClearSupersededStep;
  }

  /** A run is judged by what it completed: an incomplete one is resolved as superseded
      or left for the restart, a completed one is never abandoned, even when a
      supersession raced in at its very end. */
  lemma JudgedByCompletion(w: World, first: State, s: State)
    requires ValidWorld(w) && Starts(first) && Reachable(w, first, s) && Enabled(w, s, Judge)
    ensures var next := JudgeStep(w, s).pc;
            && (next.Superseding? <==> !s.pc.run.gate.pc.completed && G.WasSuperseded(s.pc.run.gate))
            && (!next.Superseding? && !next.Stopped? <==> s.pc.run.gate.pc.completed && !s.shutdown)
  {
    var schedule :| Exec(w, first, schedule) == Some(s);
    JudgedRunFacts(w, first, s, schedule);
  }

  lemma JudgedRunFacts(w: World, first: State, s: State, schedule: seq<Action>)
    requires ValidWorld(w) && Starts(first) && Exec(w, first, schedule) == Some(s)
    requires s.pc.Running? && s.pc.run.gate.pc.Done?
    ensures s.pc.run.gate.pc.passed ==> s.pc.run.gate.pc.completed
    ensures !s.pc.run.gate.pc.completed && !G.WasSuperseded(s.pc.run.gate) ==> s.shutdown
  {
    hide RunOpen, Exec;
    assert LedgerInv(w, s, OpenPlaces(first.ledger)) by { LedgerRun(w, first, schedule); }
    OpenRunFacts(w, ViewOf(s), s.pc.run, OpenPlaces(first.ledger));
    IncompleteMeansCut(s.pc.run.reading, s.pc.run.gate);
  }

  lemma JudgedNotRunning(w: World, s: State)
    requires s.pc.Running? && s.pc.run.gate.pc.Done?
    ensures !JudgeStep(w, s).pc.Running?
  {
  }

  /** No other step is possible during a run. */
  lemma NotRunningElse(w: World, s: State, a: Action)
    requires Enabled(w, s, a) && s.pc.Running?
    ensures a.Move? || a.Shut? || a.Expire? || a.Observe? || a.Fire? || a.Gate? || a.Judge?
  {
  }

  /** Once a run's context has a cancellation cause, no later event replaces it. */
  lemma FirstCauseWins(w: World, s: State, a: Action)
    requires Enabled(w, s, a) && s.pc.Running? && s.pc.run.gate.units.cause.Some?
    requires Step(w, s, a).pc.Running?
    ensures Step(w, s, a).pc.run.gate.units.cause == s.pc.run.gate.units.cause
  {
    hide Step, Enabled, G.Step, G.Enabled, Posted, PromoteTarget, G.WasSuperseded, RunCommit;
    if a.Move? || a.Shut? || a.Expire? || a.Observe? || a.Fire? || a.Gate? {
      UnfoldWithin(w, s, a);
      if a.Gate? { GateKeepsCause(s.pc.run.reading, s.pc.run.gate, a.a); }
    } else {
      UnfoldEnd(w, s, a);
      if a.Judge? { JudgedNotRunning(w, s); }
      hide JudgeStep;
      NotRunningElse(w, s, a);
    }
  }
}
