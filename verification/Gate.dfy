/** `Runner.runCommit`: announce every context as pending, run the units, then
    resolve what the units left open. The log holds the commit statuses one run
    posts on its commit, oldest first. */
module Gate {
  import opened Common
  import S = Scheduler

  datatype Post = Post(context: Context, status: Status)

  /** The gate steps a readable configuration asks for; unit i reports on contexts[i]. */
  datatype Plan = Plan(contexts: seq<Context>, units: S.Config)

  predicate ValidPlan(p: Plan) {
    && S.ValidConfig(p.units)
    && |p.contexts| == |p.units.costs| > 0
    && (forall i | 0 <= i < |p.contexts| :: p.contexts[i].Gated?)
    && (forall i, j | 0 <= i < j < |p.contexts| :: p.contexts[i] != p.contexts[j])
  }

  /** None when .poll-ci.yml is missing or invalid. */
  type Reading = Option<Plan>

  predicate ValidReading(r: Reading) { r.Some? ==> ValidPlan(r.value) }

  function UnitsOf(r: Reading): S.Config {
    if r.Some? then r.value.units else S.Config([], 1, 1.0, [])
  }

  datatype Pc =
    | Starting
    | Announcing(k: nat)   // k statuses announced so far
    | RunningUnits
    | Cutting(i: nat)      // terminalizing what a supersession left open
    | Done(passed: bool, completed: bool)

  datatype State = State(pc: Pc, units: S.State, log: seq<Post>)

  datatype Action =
    | Cancel(cause: Cause)
    | Read
    | Announce
    | Work(a: S.Action)
    | Conclude
    | Cut

  function Init(r: Reading): State { State(Starting, S.Init(UnitsOf(r)), []) }

  predicate AllCompleted(s: S.State) { forall i | 0 <= i < |s.completed| :: s.completed[i] }

  predicate Enabled(r: Reading, g: State, a: Action) {
    match a
    case Cancel(_) => true
    case Read => g.pc.Starting?
    case Announce => r.Some? && g.pc.Announcing? && g.pc.k <= |r.value.contexts| + 1
    case Work(u) => r.Some? && g.pc.RunningUnits? && !u.Cancel? && S.Enabled(r.value.units, g.units, u)
    case Conclude => r.Some? && g.pc.RunningUnits? && g.units.launcher.Gone?
    case Cut => r.Some? && g.pc.Cutting? && g.pc.i <= |r.value.contexts| <= |g.units.completed|
  }

  function Graded(ok: bool): Status { if ok then Success else Failure }

  function AnnounceStep(p: Plan, g: State): State
    requires g.pc.Announcing? && g.pc.k <= |p.contexts| + 1
  {
    var k := g.pc.k;
    if k == |p.contexts| + 1 then g.(pc := RunningUnits)
    else g.(pc := Announcing(k + 1),
            log := g.log + [Post(if k == 0 then Rollup else p.contexts[k - 1], Pending)])
  }

  function UnitStep(p: Plan, g: State, a: S.Action): State
    requires S.Enabled(p.units, g.units, a) && |g.units.units| == |p.units.costs| == |p.contexts|
  {
    g.(units := S.Step(p.units, g.units, a),
       log := if a.Post? then g.log + [Post(p.contexts[a.i], Graded(g.units.units[a.i].ok))] else g.log)
  }

  /** The branches after runUnits returns, in the order the code tries them. */
  function ConcludeStep(g: State): State {
    if !AllCompleted(g.units) && g.units.cause.Some? && g.units.cause.value.Superseded? then g.(pc := Cutting(0))
    else if !AllCompleted(g.units) && g.units.cause.Some? then g.(pc := Done(false, false))
    else if g.units.failed == 0 then g.(pc := Done(true, true), log := g.log + [Post(Rollup, Success)])
    else g.(pc := Done(false, true), log := g.log + [Post(Rollup, Failure)])
  }

  function CutStep(p: Plan, g: State): State
    requires g.pc.Cutting? && g.pc.i <= |p.contexts| <= |g.units.completed|
  {
    var i := g.pc.i;
    if i == |p.contexts| then g.(pc := Done(false, false))
    else g.(pc := Cutting(i + 1),
            log := if g.units.completed[i] then g.log else g.log + [Post(p.contexts[i], Error)])
  }

  function Step(r: Reading, g: State, a: Action): State
    requires Enabled(r, g, a)
    requires r.Some? ==> |g.units.units| == |r.value.units.costs| == |r.value.contexts|
  {
    match a
    case Cancel(cause) => g.(units := g.units.(cause := FirstCause(g.units.cause, cause)))
    case Read =>
      if r.None? then g.(pc := Done(false, true), log := [Post(Rollup, Error)]) else g.(pc := Announcing(0))
    case Announce => AnnounceStep(r.value, g)
    case Work(u) => UnitStep(r.value, g, u)
    case Conclude => ConcludeStep(g)
    case Cut => CutStep(r.value, g)
  }

  // ----- the exact log of every reachable state -----

  function Announced(p: Plan, k: nat): seq<Post>
    requires k <= |p.contexts| + 1
  {
    if k == 0 then [] else
      Announced(p, k - 1) + [Post(if k == 1 then Rollup else p.contexts[k - 2], Pending)]
  }

  function UnitPosts(p: Plan, posts: seq<S.Result>): seq<Post>
    requires forall k | 0 <= k < |posts| :: posts[k].unit < |p.contexts|
  {
    if posts == [] then [] else
      var last := posts[|posts| - 1];
      UnitPosts(p, posts[..|posts| - 1]) + [Post(p.contexts[last.unit], Graded(last.ok))]
  }

  function CutPosts(p: Plan, completed: seq<bool>, i: nat): seq<Post>
    requires i <= |p.contexts| <= |completed|
  {
    if i == 0 then [] else
      CutPosts(p, completed, i - 1) + if completed[i - 1] then [] else [Post(p.contexts[i - 1], Error)]
  }

  ghost predicate Untouched(r: Reading, g: State) {
    g.units == S.Init(UnitsOf(r)).(cause := g.units.cause)
  }

  ghost predicate PostsInRange(p: Plan, g: State) {
    forall k | 0 <= k < |g.units.posts| :: g.units.posts[k].unit < |p.contexts|
  }

  function UnitLog(p: Plan, g: State): seq<Post>
    requires forall k | 0 <= k < |g.units.posts| :: g.units.posts[k].unit < |p.contexts|
  {
    Announced(p, |p.contexts| + 1) + UnitPosts(p, g.units.posts)
  }

  predicate WasSuperseded(g: State) { g.units.cause.Some? && g.units.cause.value.Superseded? }

  /** What runCommit posts after runUnits has returned. */
  function Closing(p: Plan, g: State): seq<Post>
    requires g.pc.Done? && |p.contexts| <= |g.units.completed|
  {
    if g.pc.completed then [Post(Rollup, if g.pc.passed then Success else Failure)]
    else if WasSuperseded(g) then CutPosts(p, g.units.completed, |p.contexts|)
    else []
  }

  ghost predicate PlanInv(p: Plan, g: State) {
    S.Inv(p.units, g.units) && LogInv(p, g)
  }

  ghost predicate LogInv(p: Plan, g: State) {
    && PostsInRange(p, g)
    && match g.pc
       case Starting => g.log == [] && Untouched(Some(p), g)
       case Announcing(k) => k <= |p.contexts| + 1 && g.log == Announced(p, k) && Untouched(Some(p), g)
       case RunningUnits => g.log == UnitLog(p, g)
       case Cutting(i) =>
         && i <= |p.contexts| && g.units.launcher.Gone? && WasSuperseded(g) && !AllCompleted(g.units)
         && |g.units.completed| == |p.contexts|
         && g.log == UnitLog(p, g) + CutPosts(p, g.units.completed, i)
       case Done(passed, completed) =>
         && g.units.launcher.Gone?
         && |g.units.completed| == |p.contexts|
         && completed == AllCompleted(g.units)
         && passed == (completed && g.units.failed == 0)
         && (!completed ==> g.units.cause.Some?)
         && g.log == UnitLog(p, g) + Closing(p, g)
  }

  ghost predicate Inv(r: Reading, g: State) {
    match r
    case Some(p) => PlanInv(p, g)
    case None =>
      && |g.units.units| == 0
      && ((g.pc == Starting && g.log == []) || (g.pc == Done(false, true) && g.log == [Post(Rollup, Error)]))
  }

  lemma InitInv(r: Reading)
    requires ValidReading(r)
    ensures Inv(r, Init(r))
  {
    if r.Some? { S.InitInv(r.value.units); }
  }

  lemma PostKeepsLog(p: Plan, posts: seq<S.Result>, r: S.Result)
    requires r.unit < |p.contexts|
    requires forall k | 0 <= k < |posts| :: posts[k].unit < |p.contexts|
    ensures UnitPosts(p, posts + [r]) == UnitPosts(p, posts) + [Post(p.contexts[r.unit], Graded(r.ok))]
  {
    assert (posts + [r])[..|posts|] == posts;
  }

  lemma UnitStepPosts(p: Plan, g: State, a: S.Action)
    requires S.Enabled(p.units, g.units, a) && |g.units.units| == |p.units.costs| == |p.contexts|
    ensures UnitStep(p, g, a).pc == g.pc
    ensures UnitStep(p, g, a).units.posts ==
            if a.Post? then g.units.posts + [S.Result(a.i, g.units.units[a.i].ok)] else g.units.posts
  {
  }

  lemma UnitKeepsLog(p: Plan, g: State, a: S.Action)
    requires ValidPlan(p) && LogInv(p, g) && g.pc.RunningUnits? && S.Enabled(p.units, g.units, a)
    requires |g.units.units| == |p.units.costs|
    ensures LogInv(p, UnitStep(p, g, a))
  {
    UnitStepPosts(p, g, a);
    UnitStepLog(p, g, a);
    if a.Post? { PostKeepsLog(p, g.units.posts, S.Result(a.i, g.units.units[a.i].ok)); }
    hide UnitStep, S.Enabled, UnitPosts, Announced;
  }

  lemma UnitStepLog(p: Plan, g: State, a: S.Action)
    requires S.Enabled(p.units, g.units, a) && |g.units.units| == |p.units.costs| == |p.contexts|
    ensures a.Post? ==> a.i < |g.units.units| && g.units.units[a.i].Counted?
    ensures UnitStep(p, g, a).log ==
            if a.Post? then g.log + [Post(p.contexts[a.i], Graded(g.units.units[a.i].ok))] else g.log
  {
    hide S.Step;
  }

  lemma ConcludeKeepsLog(p: Plan, g: State)
    requires LogInv(p, g) && g.pc.RunningUnits? && g.units.launcher.Gone?
    requires |g.units.completed| == |p.contexts|
    requires !AllCompleted(g.units) ==> g.units.cause.Some?
    ensures LogInv(p, ConcludeStep(g))
  {
  }

  lemma CutKeepsLog(p: Plan, g: State)
    requires LogInv(p, g) && Enabled(Some(p), g, Cut)
    ensures LogInv(p, CutStep(p, g))
  {
    hide UnitPosts, Announced, PostsFor;
    var i := g.pc.i;
    if i < |p.contexts| { CutPostsGrow(p, g.units.completed, i + 1); }
    hide CutPosts;
    assert PostsInRange(p, CutStep(p, g)) && UnitLog(p, CutStep(p, g)) == UnitLog(p, g);
    hide UnitLog, AllCompleted;
  }

  lemma AnnounceKeepsLog(p: Plan, g: State)
    requires LogInv(p, g) && Enabled(Some(p), g, Announce)
    ensures LogInv(p, AnnounceStep(p, g))
  {
  }

  lemma PlanStepInv(p: Plan, g: State, a: Action)
    requires ValidPlan(p) && PlanInv(p, g) && Enabled(Some(p), g, a)
    ensures PlanInv(p, Step(Some(p), g, a))
  {
    match a
    case Read =>
    case Cancel(cause) => S.StepInv(p.units, g.units, S.Cancel(cause));
    case Work(u) => S.StepInv(p.units, g.units, u); UnitKeepsLog(p, g, u);
    case Conclude => S.ReturnedFromInv(p.units, g.units); ConcludeKeepsLog(p, g);
    case Cut => CutKeepsLog(p, g);
    case Announce => AnnounceKeepsLog(p, g);
  }

  /** Every step of a run, and every cancellation, keeps the exact log. */
  lemma StepInv(r: Reading, g: State, a: Action)
    requires ValidReading(r) && Inv(r, g) && Enabled(r, g, a)
    ensures Inv(r, Step(r, g, a))
  {
    if r.Some? { PlanStepInv(r.value, g, a); }
  }

  // ----- what the log says about each context -----

  /** The statuses posted for one context, oldest first. */
  ghost function PostsFor(log: seq<Post>, context: Context): seq<Status> {
    if log == [] then [] else
      PostsFor(log[..|log| - 1], context)
      + if log[|log| - 1].context == context then [log[|log| - 1].status] else []
  }

  lemma {:induction false} PostsForConcat(a: seq<Post>, b: seq<Post>, context: Context)
    ensures PostsFor(a + b, context) == PostsFor(a, context) + PostsFor(b, context)
  {
    if b == [] {
      assert a + b == a;
    } else {
      var n := |b| - 1;
      PostsForConcat(a, b[..n], context);
      assert (a + b)[..|a + b| - 1] == a + b[..n];
    }
  }

  lemma OnePost(context: Context, status: Status, of: Context)
    ensures PostsFor([Post(context, status)], of) == if context == of then [status] else []
    ensures PostsFor([], of) == []
  {
    assert [Post(context, status)][..0] == [];
  }

  lemma AnnouncedGrows(p: Plan, k: nat)
    requires 0 < k <= |p.contexts|
    ensures Announced(p, k + 1) == Announced(p, k) + [Post(p.contexts[k - 1], Pending)]
  {
  }

  lemma AnnouncedFirst(p: Plan)
    ensures Announced(p, 1) == [Post(Rollup, Pending)]
  {
    assert Announced(p, 0) == [];
  }

  lemma CutPostsGrow(p: Plan, completed: seq<bool>, n: nat)
    requires 0 < n <= |p.contexts| <= |completed|
    ensures CutPosts(p, completed, n) ==
            CutPosts(p, completed, n - 1) + if completed[n - 1] then [] else [Post(p.contexts[n - 1], Error)]
  {
  }

  lemma NothingCut(p: Plan, completed: seq<bool>)
    requires |p.contexts| <= |completed|
    ensures CutPosts(p, completed, 0) == []
  {
  }

  lemma {:induction false} AnnouncedFor(p: Plan, k: nat, context: Context)
    requires ValidPlan(p) && k <= |p.contexts|
    ensures PostsFor(Announced(p, k + 1), context) ==
            if context == Rollup || context in p.contexts[..k] then [Pending] else []
  {
    hide PostsFor, Announced;
    if k == 0 {
      AnnouncedFirst(p);
      OnePost(Rollup, Pending, context);
    } else {
      AnnouncedFor(p, k - 1, context);
      AnnouncedGrows(p, k);
      var last := p.contexts[k - 1];
      PostsForConcat(Announced(p, k), [Post(last, Pending)], context);
      OnePost(last, Pending, context);
      assert p.contexts[..k] == p.contexts[..k - 1] + [last];
      assert last !in p.contexts[..k - 1] && last != Rollup;
      hide ValidPlan;
    }
  }

  ghost function Verdicts(results: seq<bool>): seq<Status> {
    seq(|results|, k requires 0 <= k < |results| => Graded(results[k]))
  }

  lemma {:induction false} UnitPostsFor(p: Plan, posts: seq<S.Result>, i: nat)
    requires ValidPlan(p) && i < |p.contexts|
    requires forall k | 0 <= k < |posts| :: posts[k].unit < |p.contexts|
    ensures PostsFor(UnitPosts(p, posts), p.contexts[i]) == Verdicts(S.ResultsFor(posts, i))
  {
    hide PostsFor, UnitPosts;
    UnitPostsGrow(p, posts);
    if posts != [] {
      var n := |posts| - 1;
      var unit, status := p.contexts[posts[n].unit], Graded(posts[n].ok);
      UnitPostsFor(p, posts[..n], i);
      PostsForConcat(UnitPosts(p, posts[..n]), [Post(unit, status)], p.contexts[i]);
      OnePost(unit, status, p.contexts[i]);
      assert unit == p.contexts[i] <==> posts[n].unit == i;
      hide ValidPlan;
    } else {
      OnePost(Rollup, Error, p.contexts[i]);
    }
  }

  lemma UnitPostsGrow(p: Plan, posts: seq<S.Result>)
    requires forall k | 0 <= k < |posts| :: posts[k].unit < |p.contexts|
    ensures posts != [] ==>
              var last := posts[|posts| - 1];
              UnitPosts(p, posts) ==
              UnitPosts(p, posts[..|posts| - 1]) + [Post(p.contexts[last.unit], Graded(last.ok))]
    ensures posts == [] ==> UnitPosts(p, posts) == []
  {
  }

  lemma {:induction false} UnitPostsElsewhere(p: Plan, posts: seq<S.Result>, context: Context)
    requires forall k | 0 <= k < |posts| :: posts[k].unit < |p.contexts|
    requires context !in p.contexts
    ensures PostsFor(UnitPosts(p, posts), context) == []
  {
    hide PostsFor, UnitPosts;
    UnitPostsGrow(p, posts);
    if posts != [] {
      var n := |posts| - 1;
      var unit, status := p.contexts[posts[n].unit], Graded(posts[n].ok);
      UnitPostsElsewhere(p, posts[..n], context);
      PostsForConcat(UnitPosts(p, posts[..n]), [Post(unit, status)], context);
      OnePost(unit, status, context);
    } else {
      OnePost(Rollup, Error, context);
    }
  }

  lemma {:induction false} CutPostsFor(p: Plan, completed: seq<bool>, n: nat, i: nat)
    requires ValidPlan(p) && n <= |p.contexts| <= |completed| && i < |p.contexts|
    ensures PostsFor(CutPosts(p, completed, n), p.contexts[i]) == if i < n && !completed[i] then [Error] else []
  {
    hide PostsFor, CutPosts;
    if n > 0 {
      CutPostsFor(p, completed, n - 1, i);
      CutPostsGrow(p, completed, n);
      assert n - 1 != i ==> p.contexts[n - 1] != p.contexts[i];
      hide ValidPlan;
      var last := if completed[n - 1] then [] else [Post(p.contexts[n - 1], Error)];
      PostsForConcat(CutPosts(p, completed, n - 1), last, p.contexts[i]);
      OnePost(p.contexts[n - 1], Error, p.contexts[i]);
    } else {
      NothingCut(p, completed);
      OnePost(Rollup, Error, p.contexts[i]);
    }
  }

  lemma {:induction false} CutPostsElsewhere(p: Plan, completed: seq<bool>, n: nat, context: Context)
    requires n <= |p.contexts| <= |completed| && context !in p.contexts
    ensures PostsFor(CutPosts(p, completed, n), context) == []
  {
    hide PostsFor, CutPosts;
    if n > 0 {
      CutPostsElsewhere(p, completed, n - 1, context);
      CutPostsGrow(p, completed, n);
      var last := if completed[n - 1] then [] else [Post(p.contexts[n - 1], Error)];
      PostsForConcat(CutPosts(p, completed, n - 1), last, context);
      OnePost(p.contexts[n - 1], Error, context);
    } else {
      NothingCut(p, completed);
      OnePost(Rollup, Error, context);
    }
  }

  lemma ClosingElsewhere(p: Plan, g: State, context: Context)
    requires g.pc.Done? && |g.units.completed| == |p.contexts| && context !in p.contexts
    ensures PostsFor(Closing(p, g), context) ==
            if context == Rollup && g.pc.completed then [if g.pc.passed then Success else Failure] else []
  {
    CutPostsElsewhere(p, g.units.completed, |p.contexts|, context);
  }

  /** Everything one run posts, with the `ci` rollup that the caller of runCommit
      adds to a superseded run. */
  function Trace(g: State): seq<Post> {
    if g.pc == Done(false, false) then g.log + [Post(Rollup, Error)] else g.log
  }

  /** What a concluded run leaves on unit i's context. */
  function Verdict(p: Plan, g: State, i: nat): Status
    requires i < |g.units.completed| && i < |p.units.truth|
  {
    if g.units.completed[i] then Graded(p.units.truth[i]) else Error
  }

  lemma OneVerdict(results: seq<bool>)
    ensures results == [] ==> Verdicts(results) == []
    ensures forall ok | results == [ok] :: Verdicts(results) == [Graded(ok)]
  {
  }

  lemma LogFor(p: Plan, posts: seq<S.Result>, closing: seq<Post>, context: Context)
    requires ValidPlan(p) && forall k | 0 <= k < |posts| :: posts[k].unit < |p.contexts|
    ensures PostsFor(Announced(p, |p.contexts| + 1) + UnitPosts(p, posts) + closing, context) ==
            (if context == Rollup || context in p.contexts then [Pending] else [])
            + PostsFor(UnitPosts(p, posts), context) + PostsFor(closing, context)
  {
    hide PostsFor, Announced, UnitPosts;
    var n := |p.contexts|;
    AnnouncedFor(p, n, context);
    assert p.contexts[..n] == p.contexts;
    hide ValidPlan;
    PostsForConcat(Announced(p, n + 1), UnitPosts(p, posts), context);
    PostsForConcat(Announced(p, n + 1) + UnitPosts(p, posts), closing, context);
  }

  lemma ClosingFor(p: Plan, g: State, i: nat)
    requires ValidPlan(p) && g.pc.Done? && |g.units.completed| == |p.contexts| && i < |p.contexts|
    requires g.pc.completed == AllCompleted(g.units) && (g.pc.completed || WasSuperseded(g))
    ensures PostsFor(Closing(p, g), p.contexts[i]) == if g.units.completed[i] then [] else [Error]
  {
    CutPostsFor(p, g.units.completed, |p.contexts|, i);
  }

  lemma TraceFor(g: State, context: Context)
    ensures PostsFor(Trace(g), context) ==
            PostsFor(g.log, context) + if g.pc == Done(false, false) && context == Rollup then [Error] else []
  {
    PostsForConcat(g.log, [Post(Rollup, Error)], context);
  }

  /** The part of the invariant of a finished run that its log depends on. */
  ghost predicate Finished(p: Plan, g: State) {
    && g.pc.Done? && (g.pc.completed || WasSuperseded(g))
    && |g.units.completed| == |p.contexts| == |p.units.truth|
    && g.pc.completed == AllCompleted(g.units)
    && PostsInRange(p, g)
    && g.log == UnitLog(p, g) + Closing(p, g)
    && forall i | 0 <= i < |p.contexts| ::
         S.ResultsFor(g.units.posts, i) == if g.units.completed[i] then [p.units.truth[i]] else []
  }

  lemma FinishedFromInv(p: Plan, g: State)
    requires ValidPlan(p) && PlanInv(p, g) && g.pc.Done? && (g.pc.completed || WasSuperseded(g))
    ensures Finished(p, g)
  {
    S.ReturnedFromInv(p.units, g.units);
  }

  lemma UnitPostsOnce(p: Plan, posts: seq<S.Result>, i: nat)
    requires ValidPlan(p) && i < |p.contexts|
    requires forall k | 0 <= k < |posts| :: posts[k].unit < |p.contexts|
    ensures S.ResultsFor(posts, i) == [] ==> PostsFor(UnitPosts(p, posts), p.contexts[i]) == []
    ensures forall ok | S.ResultsFor(posts, i) == [ok] ::
              PostsFor(UnitPosts(p, posts), p.contexts[i]) == [Graded(ok)]
  {
    hide PostsFor, UnitPosts, ValidPlan, S.ResultsFor;
    UnitPostsFor(p, posts, i);
    OneVerdict(S.ResultsFor(posts, i));
    hide Verdicts;
  }

  lemma UnitLogFor(p: Plan, posts: seq<S.Result>, closing: seq<Post>, i: nat, done: bool, ok: bool)
    requires ValidPlan(p) && i < |p.contexts|
    requires forall k | 0 <= k < |posts| :: posts[k].unit < |p.contexts|
    requires S.ResultsFor(posts, i) == if done then [ok] else []
    requires PostsFor(closing, p.contexts[i]) == if done then [] else [Error]
    ensures PostsFor(Announced(p, |p.contexts| + 1) + UnitPosts(p, posts) + closing, p.contexts[i]) ==
            [Pending, if done then Graded(ok) else Error]
  {
    hide PostsFor, Announced, UnitPosts, S.ResultsFor;
    LogFor(p, posts, closing, p.contexts[i]);
    UnitPostsOnce(p, posts, i);
    assert p.contexts[i] in p.contexts;
    hide ValidPlan;
  }

  lemma FinishedParts(p: Plan, g: State)
    requires Finished(p, g)
    ensures g.pc.Done? && (g.pc.completed || WasSuperseded(g))
    ensures |g.units.completed| == |p.contexts| == |p.units.truth| && g.pc.completed == AllCompleted(g.units)
    ensures PostsInRange(p, g)
    ensures g.log == Announced(p, |p.contexts| + 1) + UnitPosts(p, g.units.posts) + Closing(p, g)
  {
    hide PostsFor, Announced, UnitPosts, Closing, AllCompleted, S.ResultsFor;
  }

  lemma FinishedUnit(p: Plan, g: State, i: nat)
    requires Finished(p, g) && i < |p.contexts|
    ensures S.ResultsFor(g.units.posts, i) == if g.units.completed[i] then [p.units.truth[i]] else []
  {
    hide PostsFor, Announced, UnitPosts, Closing, AllCompleted, S.ResultsFor, PostsInRange;
  }

  /** Unit i's context, when the run completed or was superseded. */
  lemma UnitTrace(p: Plan, g: State, i: nat)
    requires ValidPlan(p) && Finished(p, g) && i < |p.contexts|
    ensures PostsFor(g.log, p.contexts[i]) == [Pending, Verdict(p, g, i)]
  {
    hide ValidPlan, Finished, PostsFor, Announced, UnitPosts, Closing, AllCompleted, S.ResultsFor;
    FinishedParts(p, g);
    FinishedUnit(p, g, i);
    ClosingFor(p, g, i);
    UnitLogFor(p, g.units.posts, Closing(p, g), i, g.units.completed[i], p.units.truth[i]);
  }

  /** The rollup and every context the configuration does not mention. */
  lemma OtherTrace(p: Plan, g: State, context: Context)
    requires ValidPlan(p) && Finished(p, g) && context !in p.contexts
    ensures PostsFor(g.log, context) ==
            if context != Rollup then []
            else if g.pc.completed then [Pending, if g.pc.passed then Success else Failure] else [Pending]
  {
    hide ValidPlan, Finished, PostsFor, Announced, UnitPosts, Closing, AllCompleted, S.ResultsFor;
    FinishedParts(p, g);
    UnitPostsElsewhere(p, g.units.posts, context);
    ClosingElsewhere(p, g, context);
    LogFor(p, g.units.posts, Closing(p, g), context);
  }

  /** Shutdown, by contrast, leaves what it cut as it is: a unit that completed keeps its
      result, every other context that the run announced stays pending, and so does the
      rollup, for the restart to find. */
  lemma ShutdownTrace(p: Plan, g: State)
    requires ValidPlan(p) && Reachable(Some(p), g)
    requires g.pc.Done? && !g.pc.completed && g.units.cause == Some(Shutdown)
    ensures |g.units.completed| == |p.contexts| == |p.units.truth|
    ensures forall i | 0 <= i < |p.contexts| ::
              PostsFor(g.log, p.contexts[i]) ==
              if !g.units.completed[i] then [Pending] else [Pending, if p.units.truth[i] then Success else Failure]
    ensures PostsFor(g.log, Rollup) == [Pending]
    ensures exists i :: 0 <= i < |p.contexts| && !g.units.completed[i]
  {
    hide PostsFor, Announced, UnitPosts, S.ResultsFor, Reachable, PlanInv;
    assert PlanInv(p, g) by { ReachableInv(Some(p), g); }
    ShutdownParts(p, g);
    forall i | 0 <= i < |p.contexts|
      ensures PostsFor(g.log, p.contexts[i]) ==
              if !g.units.completed[i] then [Pending] else [Pending, if p.units.truth[i] then Success else Failure]
    {
      CutUnit(p, g.units.posts, i, g.units.completed[i], p.units.truth[i]);
    }
    CutRollup(p, g.units.posts);
    hide ValidPlan, PostsInRange;
  }

  lemma CutUnit(p: Plan, posts: seq<S.Result>, i: nat, done: bool, ok: bool)
    requires ValidPlan(p) && i < |p.contexts|
    requires forall k | 0 <= k < |posts| :: posts[k].unit < |p.contexts|
    requires S.ResultsFor(posts, i) == if done then [ok] else []
    ensures PostsFor(Announced(p, |p.contexts| + 1) + UnitPosts(p, posts) + [], p.contexts[i]) ==
            if !done then [Pending] else [Pending, if ok then Success else Failure]
  {
    hide PostsFor, Announced, UnitPosts, S.ResultsFor;
    OnePost(Rollup, Error, p.contexts[i]);
    LogFor(p, posts, [], p.contexts[i]);
    UnitPostsOnce(p, posts, i);
    assert PostsFor(UnitPosts(p, posts), p.contexts[i]) == if done then [Graded(ok)] else [];
    assert p.contexts[i] in p.contexts;
    hide ValidPlan;
    assert [Pending] + [Graded(ok)] + [] == [Pending, Graded(ok)] && [Pending] + [] + [] == [Pending];
  }

  lemma CutRollup(p: Plan, posts: seq<S.Result>)
    requires ValidPlan(p) && forall k | 0 <= k < |posts| :: posts[k].unit < |p.contexts|
    ensures PostsFor(Announced(p, |p.contexts| + 1) + UnitPosts(p, posts) + [], Rollup) == [Pending]
  {
    hide PostsFor, Announced, UnitPosts;
    OnePost(Rollup, Error, Rollup);
    LogFor(p, posts, [], Rollup);
    UnitPostsElsewhere(p, posts, Rollup);
  }

  lemma ShutdownParts(p: Plan, g: State)
    requires ValidPlan(p) && PlanInv(p, g) && g.pc.Done? && !g.pc.completed && !WasSuperseded(g)
    ensures |g.units.completed| == |p.contexts| == |p.units.truth| && PostsInRange(p, g)
    ensures g.log == Announced(p, |p.contexts| + 1) + UnitPosts(p, g.units.posts) + []
    ensures exists i :: 0 <= i < |p.contexts| && !g.units.completed[i]
    ensures forall i | 0 <= i < |p.contexts| ::
              S.ResultsFor(g.units.posts, i) == if g.units.completed[i] then [p.units.truth[i]] else []
  {
    S.ReturnedFromInv(p.units, g.units);
    hide UnitPosts, Announced, S.ResultsFor;
  }

  /** `passed` means that every unit ran to its end uncancelled and succeeded, and
      that there was at least one. */
  lemma PassedMeansAllOk(r: Reading, g: State)
    requires ValidReading(r) && Inv(r, g) && g.pc.Done?
    ensures g.pc.passed ==> r.Some? && |r.value.contexts| > 0
    ensures g.pc.passed <==> r.Some? && forall i | 0 <= i < |r.value.units.truth| ::
              g.units.completed[i] && g.units.units[i] == S.Finished(true) && r.value.units.truth[i]
  {
    hide S.Accounting, S.ResultsFor, UnitPosts, Announced, PostsFor;
    if r.Some? {
      var p := r.value;
      S.ReturnedFromInv(p.units, g.units);
      var failures := set i | 0 <= i < |g.units.units| && g.units.completed[i] && !p.units.truth[i];
      if g.pc.completed {
        if g.units.failed == 0 {
          forall i | 0 <= i < |g.units.units| ensures p.units.truth[i] { assert i !in failures; }
        } else {
          var i :| i in failures;
          assert !p.units.truth[i];
        }
      }
    }
  }

  // ----- runs of the gate -----

  ghost function Exec(r: Reading, schedule: seq<Action>): Option<State> {
    if schedule == [] then Some(Init(r)) else
      var before := Exec(r, schedule[..|schedule| - 1]);
      var a := schedule[|schedule| - 1];
      if before.Some? && (r.Some? ==> |before.value.units.units| == |r.value.units.costs| == |r.value.contexts|)
         && Enabled(r, before.value, a)
      then Some(Step(r, before.value, a)) else None
  }

  ghost predicate Reachable(r: Reading, g: State) {
    exists schedule :: Exec(r, schedule) == Some(g)
  }

  lemma {:induction false} ExecInv(r: Reading, schedule: seq<Action>)
    requires ValidReading(r) && Exec(r, schedule).Some?
    ensures Inv(r, Exec(r, schedule).value)
  {
    if schedule == [] {
      InitInv(r);
    } else {
      ExecInv(r, schedule[..|schedule| - 1]);
      StepInv(r, Exec(r, schedule[..|schedule| - 1]).value, schedule[|schedule| - 1]);
    }
  }

  lemma ReachableInv(r: Reading, g: State)
    requires ValidReading(r) && Reachable(r, g)
    ensures Inv(r, g)
  {
    var schedule :| Exec(r, schedule) == Some(g);
    ExecInv(r, schedule);
  }

  /** The rollup that ends a run. */
  function RollupStatus(g: State): Status
    requires g.pc.Done?
  {
    if !g.pc.completed then Error else if g.pc.passed then Success else Failure
  }

  lemma RollupMeaning(p: Plan, g: State)
    requires ValidPlan(p) && PlanInv(p, g) && g.pc.Done?
    ensures |g.units.completed| == |p.contexts| == |p.units.truth|
    ensures RollupStatus(g) == Error <==> exists i :: 0 <= i < |p.contexts| && !g.units.completed[i]
    ensures RollupStatus(g) == Success <==> forall i | 0 <= i < |p.contexts| :: g.units.completed[i] && p.units.truth[i]
  {
    DoneCounts(p, g);
    PassedMeansAllOk(Some(p), g);
    hide PlanInv, ValidPlan;
  }

  lemma DoneCounts(p: Plan, g: State)
    requires ValidPlan(p) && PlanInv(p, g) && g.pc.Done?
    ensures |g.units.completed| == |p.contexts| == |p.units.truth|
    ensures g.pc.completed <==> forall i | 0 <= i < |p.contexts| :: g.units.completed[i]
    ensures g.pc.passed ==> g.pc.completed
    ensures forall i | 0 <= i < |p.contexts| && g.units.completed[i] :: g.units.units[i] == S.Finished(p.units.truth[i])
  {
    S.ReturnedFromInv(p.units, g.units);
    hide S.Accounting, S.ResultsFor, UnitPosts, Announced, Closing, S.Inv;
  }

  lemma RollupTrace(p: Plan, g: State)
    requires g.pc.Done? && (g.pc.passed ==> g.pc.completed)
    requires PostsFor(g.log, Rollup) ==
             if g.pc.completed then [Pending, if g.pc.passed then Success else Failure] else [Pending]
    ensures PostsFor(Trace(g), Rollup) == [Pending, RollupStatus(g)]
  {
    TraceFor(g, Rollup);
  }

  /** The whole trace of an uncut or superseded run, in every interleaving: each
      announced context gets exactly one terminal post after its pending one, a
      completed unit keeps its real result, nothing else is posted, and the terminal
      `ci` comes last: error iff some unit was cut short, success iff every unit
      completed and succeeded, failure otherwise. */
  lemma GateTrace(p: Plan, g: State)
    requires ValidPlan(p) && Reachable(Some(p), g)
    requires g.pc.Done? && (g.pc.completed || WasSuperseded(g))
    ensures |g.units.completed| == |p.contexts| == |p.units.truth|
    ensures forall i | 0 <= i < |p.contexts| ::
              PostsFor(Trace(g), p.contexts[i]) ==
              [Pending, if !g.units.completed[i] then Error else if p.units.truth[i] then Success else Failure]
    ensures forall context | context !in p.contexts && context != Rollup :: PostsFor(Trace(g), context) == []
    ensures PostsFor(Trace(g), Rollup) == [Pending, RollupStatus(g)]
    ensures Trace(g) != [] && Trace(g)[|Trace(g)| - 1] == Post(Rollup, RollupStatus(g))
    ensures RollupStatus(g) == Error <==> exists i :: 0 <= i < |p.contexts| && !g.units.completed[i]
    ensures RollupStatus(g) == Success <==> forall i | 0 <= i < |p.contexts| :: g.units.completed[i] && p.units.truth[i]
  {
    ReachableInv(Some(p), g);
    FinishedFromInv(p, g);
    RollupMeaning(p, g);
    OtherTrace(p, g, Rollup);
    RollupTrace(p, g);
    forall i | 0 <= i < |p.contexts|
      ensures PostsFor(Trace(g), p.contexts[i]) ==
              [Pending, if !g.units.completed[i] then Error else if p.units.truth[i] then Success else Failure]
    {
      UnitTrace(p, g, i);
      TraceFor(g, p.contexts[i]);
    }
    forall context | context !in p.contexts && context != Rollup ensures PostsFor(Trace(g), context) == [] {
      OtherTrace(p, g, context);
      TraceFor(g, context);
    }
  }
}
