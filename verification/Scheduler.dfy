/** `Runner.runUnits`: one launcher and one goroutine per launched unit, sharing
    `running`, `used`, `failed` and `completed[]` under a mutex with a condition
    variable. A step is one critical section, one context check, one return of
    `run`, or one status post; steps of different goroutines interleave freely and
    a cancellation may land between any two of them. */
module Scheduler {
  import opened Common
  import opened Sums

  /** `truth[i]` is what unit i's `run` returns when nothing cuts it short. */
  datatype Config = Config(costs: seq<real>, maxCount: int, budget: real, truth: seq<bool>)

  predicate ValidConfig(c: Config) {
    && |c.costs| == |c.truth|
    && c.budget > 0.0
    && forall i | 0 <= i < |c.costs| :: c.costs[i] > 0.0
  }

  function Cap(c: Config): int { if c.maxCount < 1 then 1 else c.maxCount }

  function Clamp(c: Config, i: nat): real
    requires i < |c.costs|
  {
    if c.costs[i] > c.budget then c.budget else c.costs[i]
  }

  /** Where one unit's goroutine is. `ok` is the value its `run` returned. */
  datatype Unit =
    | Idle                 // not launched
    | Running              // inside run
    | Answered(ok: bool)   // run returned; the slot is still held
    | Released(ok: bool)   // slot given back; context not yet checked
    | Checked(ok: bool)    // context was live; failure not yet counted
    | Counted(ok: bool)    // counted; status not yet posted
    | Posted(ok: bool)     // status posted; completed[i] not yet set
    | Finished(ok: bool)   // completed[i] set
    | Abandoned            // saw the cancellation and returned

  /** `next` is the index of the unit the launcher is at. */
  datatype Launcher =
    | Deciding(next: nat)  // about to evaluate the admission guard with the lock
    | Asleep(next: nat)    // in cond.Wait
    | Joining(next: nat)   // in wg.Wait
    | Gone(next: nat)      // runUnits has returned

  datatype Result = Result(unit: nat, ok: bool)

  datatype State = State(
    launcher: Launcher, units: seq<Unit>,
    running: int, used: real, failed: int, completed: seq<bool>,
    cause: Option<Cause>, posts: seq<Result>)

  datatype Action =
    | Cancel(cause: Cause)
    | Decide
    | Join
    | Answer(i: nat, ok: bool)
    | Release(i: nat)
    | CheckContext(i: nat)
    | Count(i: nat)
    | Post(i: nat)
    | Complete(i: nat)

  function Init(c: Config): State {
    var n := |c.costs|;
    State(Deciding(0), seq(n, _ => Idle), 0, 0.0, 0, seq(n, _ => false), None, [])
  }

  /** The condition under which the launcher waits before unit i. */
  predicate Blocked(c: Config, s: State, i: nat)
    requires i < |c.costs|
  {
    s.running > 0 && (s.running >= Cap(c) || s.used + Clamp(c, i) > c.budget)
  }

  predicate Settled(u: Unit) { u.Idle? || u.Finished? || u.Abandoned? }

  predicate Enabled(c: Config, s: State, a: Action) {
    match a
    case Cancel(_) => true
    case Decide => s.launcher.Deciding? && s.launcher.next <= |c.costs|
    case Join => s.launcher.Joining? && forall i | 0 <= i < |s.units| :: Settled(s.units[i])
    case Answer(i, ok) =>
      i < |s.units| && i < |c.truth| && s.units[i].Running? && (s.cause.Some? || ok == c.truth[i])
    case Release(i) => i < |s.units| && i < |c.costs| && s.units[i].Answered?
    case CheckContext(i) => i < |s.units| && s.units[i].Released?
    case Count(i) => i < |s.units| && s.units[i].Checked?
    case Post(i) => i < |s.units| && s.units[i].Counted?
    case Complete(i) => i < |s.units| && i < |s.completed| && s.units[i].Posted?
  }

  /** `cond.Signal`: the launcher is the only possible waiter. */
  function Wake(l: Launcher): Launcher {
    if l.Asleep? then Deciding(l.next) else l
  }

  function Decided(c: Config, s: State): State
    requires Enabled(c, s, Decide) && |s.units| == |c.costs|
  {
    var i := s.launcher.next;
    if i == |c.costs| then s.(launcher := Joining(i))
    else if Blocked(c, s, i) then s.(launcher := Asleep(i))
    else if s.cause.Some? then s.(launcher := Joining(i))
    else s.(launcher := Deciding(i + 1), units := s.units[i := Running],
            running := s.running + 1, used := s.used + Clamp(c, i))
  }

  function Step(c: Config, s: State, a: Action): State
    requires Enabled(c, s, a) && |s.units| == |c.costs|
  {
    match a
    case Cancel(cause) => s.(cause := FirstCause(s.cause, cause))
    case Decide => Decided(c, s)
    case Join => s.(launcher := Gone(s.launcher.next))
    case Answer(i, ok) => s.(units := s.units[i := Answered(ok)])
    case Release(i) =>
      s.(units := s.units[i := Released(s.units[i].ok)], launcher := Wake(s.launcher),
         running := s.running - 1, used := s.used - Clamp(c, i))
    case CheckContext(i) =>
      s.(units := s.units[i := if s.cause.Some? then Abandoned else Checked(s.units[i].ok)])
    case Count(i) =>
      s.(units := s.units[i := Counted(s.units[i].ok)],
         failed := s.failed + if s.units[i].ok then 0 else 1)
    case Post(i) =>
      s.(units := s.units[i := Posted(s.units[i].ok)], posts := s.posts + [Result(i, s.units[i].ok)])
    case Complete(i) =>
      s.(units := s.units[i := Finished(s.units[i].ok)], completed := s.completed[i := true])
  }

  // ----- what every step keeps -----

  predicate Live(u: Unit) { u.Running? || u.Answered? }

  predicate Trusted(u: Unit) { u.Checked? || u.Counted? || u.Posted? || u.Finished? }

  predicate Failing(u: Unit) { (u.Counted? || u.Posted? || u.Finished?) && !u.ok }

  ghost function LiveFlags(units: seq<Unit>): seq<int> {
    seq(|units|, i requires 0 <= i < |units| => if Live(units[i]) then 1 else 0)
  }

  ghost function LiveCosts(c: Config, units: seq<Unit>): seq<real>
    requires |units| == |c.costs|
  {
    seq(|units|, i requires 0 <= i < |units| => if Live(units[i]) then Clamp(c, i) else 0.0)
  }

  ghost function FailFlags(units: seq<Unit>): seq<int> {
    seq(|units|, i requires 0 <= i < |units| => if Failing(units[i]) then 1 else 0)
  }

  /** The results posted for one unit, oldest first. */
  ghost function ResultsFor(posts: seq<Result>, i: nat): seq<bool> {
    if posts == [] then [] else
      ResultsFor(posts[..|posts| - 1], i)
      + if posts[|posts| - 1].unit == i then [posts[|posts| - 1].ok] else []
  }

  function Reported(u: Unit): seq<bool> {
    if u.Posted? || u.Finished? then [u.ok] else []
  }

  ghost predicate Accounting(c: Config, s: State) {
    && |s.units| == |s.completed| == |c.costs|
    && s.running == Total(LiveFlags(s.units))
    && s.used == TotalReal(LiveCosts(c, s.units))
    && s.failed == Total(FailFlags(s.units))
    && s.used <= c.budget
    && s.running <= Cap(c)
  }

  ghost predicate Launched(c: Config, s: State) {
    && |s.units| == |c.costs|
    && s.launcher.next <= |c.costs|
    && (forall i | 0 <= i < |s.units| :: s.units[i].Idle? <==> s.launcher.next <= i)
    && (s.launcher.Asleep? ==> s.launcher.next < |c.costs| && Blocked(c, s, s.launcher.next))
    && ((s.launcher.Joining? || s.launcher.Gone?) && s.launcher.next < |c.costs| ==> s.cause.Some?)
    && (s.launcher.Gone? ==> forall i | 0 <= i < |s.units| :: Settled(s.units[i]))
  }

  ghost predicate Results(c: Config, s: State) {
    && |s.units| == |s.completed| == |c.costs| == |c.truth|
    && (forall i | 0 <= i < |s.units| :: s.completed[i] <==> s.units[i].Finished?)
    && (forall i | 0 <= i < |s.units| :: ResultsFor(s.posts, i) == Reported(s.units[i]))
    && (forall i | 0 <= i < |s.units| && Trusted(s.units[i]) :: s.units[i].ok == c.truth[i])
    && (forall i | 0 <= i < |s.units| && (s.units[i].Answered? || s.units[i].Released?) ::
          s.cause.Some? || s.units[i].ok == c.truth[i])
    && (forall i | 0 <= i < |s.units| && s.units[i].Abandoned? :: s.cause.Some?)
    && (forall k | 0 <= k < |s.posts| :: s.posts[k].unit < |s.units|)
  }

  ghost predicate Inv(c: Config, s: State) {
    Accounting(c, s) && Launched(c, s) && Results(c, s)
  }

  lemma InitInv(c: Config)
    requires ValidConfig(c)
    ensures Inv(c, Init(c))
  {
    var s := Init(c);
    TotalNonNegative(LiveFlags(s.units));
    TotalNonNegative(FailFlags(s.units));
    TotalRealNonNegative(LiveCosts(c, s.units));
  }

  /** The three sums after one unit changes. */
  lemma LiveUpdate(units: seq<Unit>, i: nat, u: Unit)
    requires i < |units|
    ensures Total(LiveFlags(units[i := u])) ==
            Total(LiveFlags(units)) - (if Live(units[i]) then 1 else 0) + (if Live(u) then 1 else 0)
  {
    TotalUpdate(LiveFlags(units), i, if Live(u) then 1 else 0);
    hide Live, Total;
    assert LiveFlags(units[i := u]) == LiveFlags(units)[i := if Live(u) then 1 else 0];
  }

  lemma FailUpdate(units: seq<Unit>, i: nat, u: Unit)
    requires i < |units|
    ensures Total(FailFlags(units[i := u])) ==
            Total(FailFlags(units)) - (if Failing(units[i]) then 1 else 0) + (if Failing(u) then 1 else 0)
  {
    TotalUpdate(FailFlags(units), i, if Failing(u) then 1 else 0);
    hide Failing, Total;
    assert FailFlags(units[i := u]) == FailFlags(units)[i := if Failing(u) then 1 else 0];
  }

  lemma CostUpdate(c: Config, units: seq<Unit>, i: nat, u: Unit)
    requires |units| == |c.costs| && i < |units|
    ensures TotalReal(LiveCosts(c, units[i := u])) ==
            TotalReal(LiveCosts(c, units)) - (if Live(units[i]) then Clamp(c, i) else 0.0)
            + (if Live(u) then Clamp(c, i) else 0.0)
  {
    TotalRealUpdate(LiveCosts(c, units), i, if Live(u) then Clamp(c, i) else 0.0);
    hide Live, Clamp, TotalReal;
    assert LiveCosts(c, units[i := u]) == LiveCosts(c, units)[i := if Live(u) then Clamp(c, i) else 0.0];
  }

  lemma UnitUpdate(c: Config, units: seq<Unit>, i: nat, u: Unit)
    requires |units| == |c.costs| && i < |units|
    ensures Total(LiveFlags(units[i := u])) ==
            Total(LiveFlags(units)) - (if Live(units[i]) then 1 else 0) + (if Live(u) then 1 else 0)
    ensures Total(FailFlags(units[i := u])) ==
            Total(FailFlags(units)) - (if Failing(units[i]) then 1 else 0) + (if Failing(u) then 1 else 0)
    ensures TotalReal(LiveCosts(c, units[i := u])) ==
            TotalReal(LiveCosts(c, units)) - (if Live(units[i]) then Clamp(c, i) else 0.0)
            + (if Live(u) then Clamp(c, i) else 0.0)
  {
    hide Live, Failing, Clamp, Total, TotalReal, LiveFlags, FailFlags, LiveCosts;
    LiveUpdate(units, i, u);
    FailUpdate(units, i, u);
    CostUpdate(c, units, i, u);
  }

  /** With no slot held, the budget in use is exactly zero. */
  lemma NothingRunning(c: Config, s: State)
    requires ValidConfig(c) && Accounting(c, s)
    ensures s.running >= 0
    ensures s.running == 0 ==> s.used == 0.0
    ensures s.running > 0 <==> exists i | 0 <= i < |s.units| :: Live(s.units[i])
  {
    var flags := LiveFlags(s.units);
    TotalNonNegative(flags);
    TotalRealNonNegative(LiveCosts(c, s.units));
    if s.running == 0 {
      forall i | 0 <= i < |s.units| ensures !Live(s.units[i]) { assert flags[i] == 0; }
    } else {
      var i :| 0 <= i < |flags| && flags[i] != 0;
      assert Live(s.units[i]);
    }
  }

  lemma AdmissionKeepsAccounting(c: Config, s: State)
    requires ValidConfig(c) && Accounting(c, s) && Launched(c, s) && Enabled(c, s, Decide)
    ensures Accounting(c, Decided(c, s))
  {
    NothingRunning(c, s);
    var i := s.launcher.next;
    if i < |c.costs| {
      assert s.units[i].Idle?;
      UnitUpdate(c, s.units, i, Running);
    }
  }

  /** One unit moves on, and the shared counters follow it. */
  lemma MoveKeepsAccounting(c: Config, s: State, i: nat, s': State)
    requires ValidConfig(c) && Accounting(c, s) && i < |s.units| && |s'.units| == |s.units|
    requires s'.units == s.units[i := s'.units[i]] && |s'.completed| == |s.completed|
    requires Live(s'.units[i]) ==> Live(s.units[i])
    requires s'.running == s.running - if Live(s.units[i]) && !Live(s'.units[i]) then 1 else 0
    requires s'.used == s.used - if Live(s.units[i]) && !Live(s'.units[i]) then Clamp(c, i) else 0.0
    requires s'.failed == s.failed - (if Failing(s.units[i]) then 1 else 0) + (if Failing(s'.units[i]) then 1 else 0)
    ensures Accounting(c, s')
  {
    UnitUpdate(c, s.units, i, s'.units[i]);
  }

  lemma AccountingKept(c: Config, s: State, a: Action)
    requires ValidConfig(c) && Accounting(c, s) && Launched(c, s) && Enabled(c, s, a)
    ensures Accounting(c, Step(c, s, a))
  {
    if a.Decide? {
      AdmissionKeepsAccounting(c, s);
    } else if !a.Cancel? && !a.Join? {
      MoveKeepsAccounting(c, s, a.i, Step(c, s, a));
    }
  }

  lemma DecideKeepsLaunched(c: Config, s: State)
    requires Launched(c, s) && Enabled(c, s, Decide)
    ensures Launched(c, Decided(c, s))
  {
  }

  lemma LaunchedKept(c: Config, s: State, a: Action)
    requires Launched(c, s) && Enabled(c, s, a)
    ensures Launched(c, Step(c, s, a))
  {
    if a.Decide? {
      DecideKeepsLaunched(c, s);
    } else {
      var s' := Step(c, s, a);
      assert forall i | 0 <= i < |s.units| :: s'.units[i].Idle? == s.units[i].Idle?;
    }
  }

  lemma PostKeepsResults(c: Config, s: State, i: nat)
    requires Results(c, s) && Enabled(c, s, Post(i))
    ensures Results(c, Step(c, s, Post(i)))
  {
    var s' := Step(c, s, Post(i));
    assert s'.posts[..|s.posts|] == s.posts;
    assert forall j: nat :: ResultsFor(s'.posts, j) == ResultsFor(s.posts, j) + if j == i then [s.units[i].ok] else [];
  }

  /** One unit moves on without posting. */
  lemma MoveKeepsResults(c: Config, s: State, i: nat, s': State)
    requires Results(c, s) && i < |s.units| && |s'.units| == |s.units|
    requires s'.units == s.units[i := s'.units[i]] && s'.posts == s.posts && s'.cause == s.cause
    requires Reported(s'.units[i]) == Reported(s.units[i])
    requires s'.completed == s.completed[i := s'.units[i].Finished?]
    requires Trusted(s'.units[i]) ==> s'.units[i].ok == c.truth[i]
    requires s'.units[i].Answered? || s'.units[i].Released? ==> s.cause.Some? || s'.units[i].ok == c.truth[i]
    requires s'.units[i].Abandoned? ==> s.cause.Some?
    ensures Results(c, s')
  {
  }

  lemma ResultsKept(c: Config, s: State, a: Action)
    requires Results(c, s) && Launched(c, s) && Enabled(c, s, a)
    ensures Results(c, Step(c, s, a))
  {
    if a.Post? {
      PostKeepsResults(c, s, a.i);
    } else if a.Decide? {
      var i := s.launcher.next;
      if i < |s.units| && Step(c, s, a).units != s.units { MoveKeepsResults(c, s, i, Step(c, s, a)); }
    } else if !a.Cancel? && !a.Join? {
      MoveKeepsResults(c, s, a.i, Step(c, s, a));
    }
  }

  /** Every step of every goroutine, and every cancellation, keeps the invariant. */
  lemma StepInv(c: Config, s: State, a: Action)
    requires ValidConfig(c) && Inv(c, s) && Enabled(c, s, a)
    ensures Inv(c, Step(c, s, a))
  {
    AccountingKept(c, s, a);
    LaunchedKept(c, s, a);
    ResultsKept(c, s, a);
  }

  // ----- runs -----

  /** The state after a schedule, or None when some action was not possible in its turn. */
  ghost function Exec(c: Config, schedule: seq<Action>): Option<State> {
    if schedule == [] then Some(Init(c)) else
      var before := Exec(c, schedule[..|schedule| - 1]);
      var a := schedule[|schedule| - 1];
      if before.Some? && |before.value.units| == |c.costs| && Enabled(c, before.value, a)
      then Some(Step(c, before.value, a)) else None
  }

  lemma {:induction false} ExecInv(c: Config, schedule: seq<Action>)
    requires ValidConfig(c) && Exec(c, schedule).Some?
    ensures Inv(c, Exec(c, schedule).value)
  {
    if schedule == [] {
      InitInv(c);
    } else {
      ExecInv(c, schedule[..|schedule| - 1]);
      StepInv(c, Exec(c, schedule[..|schedule| - 1]).value, schedule[|schedule| - 1]);
    }
  }

  ghost predicate Reachable(c: Config, s: State) {
    exists schedule :: Exec(c, schedule) == Some(s)
  }

  lemma ReachableInv(c: Config, s: State)
    requires ValidConfig(c) && Reachable(c, s)
    ensures Inv(c, s)
  {
    var schedule :| Exec(c, schedule) == Some(s);
    ExecInv(c, schedule);
  }

  ghost function LiveSet(s: State): set<int> {
    set i | 0 <= i < |s.units| && Live(s.units[i])
  }

  /** The costs of the units that hold a slot, as configured. */
  ghost function HeldCosts(c: Config, units: seq<Unit>): seq<real>
    requires |units| == |c.costs|
  {
    seq(|units|, i requires 0 <= i < |units| => if Live(units[i]) then c.costs[i] else 0.0)
  }

  /** The same, each limited to the budget. */
  ghost function LimitedCosts(c: Config, units: seq<Unit>): seq<real>
    requires |units| == |c.costs|
  {
    seq(|units|, i requires 0 <= i < |units| =>
      if !Live(units[i]) then 0.0 else if c.costs[i] <= c.budget then c.costs[i] else c.budget)
  }

  lemma LimitedIsClamped(c: Config, units: seq<Unit>)
    requires |units| == |c.costs|
    ensures LimitedCosts(c, units) == LiveCosts(c, units)
  {
  }

  ghost function LiveOnes(units: seq<Unit>): set<int> { set i | 0 <= i < |units| && Live(units[i]) }

  lemma LiveOnesGrow(units: seq<Unit>)
    requires units != []
    ensures var n := |units| - 1;
            && LiveOnes(units) == LiveOnes(units[..n]) + (if Live(units[n]) then {n} else {})
            && n !in LiveOnes(units[..n])
  {
    hide Live;
    var n := |units| - 1;
    assert forall i | 0 <= i < n :: units[..n][i] == units[i];
  }

  lemma {:induction false} LiveCount(units: seq<Unit>)
    ensures Total(LiveFlags(units)) == |LiveOnes(units)|
  {
    if units != [] {
      var n := |units| - 1;
      LiveCount(units[..n]);
      assert LiveFlags(units)[..n] == LiveFlags(units[..n]);
      LiveOnesGrow(units);
      hide LiveOnes, Live;
    } else {
      assert LiveOnes(units) == {};
    }
  }

  lemma FlagsCount(units: seq<Unit>)
    ensures Total(LiveFlags(units)) == |set i | 0 <= i < |units| && Live(units[i])|
  {
    LiveCount(units);
    assert LiveOnes(units) == set i | 0 <= i < |units| && Live(units[i]);
    hide LiveFlags, Total, Live;
  }

  lemma HeavyRunsAlone(c: Config, s: State, i: nat, j: nat)
    requires ValidConfig(c) && Accounting(c, s)
    requires i < |s.units| && j < |s.units| && Live(s.units[i]) && Live(s.units[j])
    requires c.costs[i] >= c.budget
    ensures i == j
  {
    if i != j { TwoTerms(LiveCosts(c, s.units), i, j); }
  }

  /** Scheduler safety, in every interleaving: the counters describe the live set,
      the caps are respected, and a unit as heavy as the budget runs alone. */
  lemma SchedulerSafety(c: Config, s: State)
    requires ValidConfig(c) && Reachable(c, s)
    ensures && |s.units| == |c.costs|
            && s.running == |LiveSet(s)|
            && s.used == TotalReal(LimitedCosts(c, s.units))
            && s.used <= c.budget
            && s.running <= (if c.maxCount < 1 then 1 else c.maxCount)
            && forall i, j | i in LiveSet(s) && j in LiveSet(s) && c.costs[i] >= c.budget :: i == j
  {
    assert Accounting(c, s) by { ReachableInv(c, s); }
    FlagsCount(s.units);
    LimitedIsClamped(c, s.units);
    forall i, j | i in LiveSet(s) && j in LiveSet(s) && c.costs[i] >= c.budget
      ensures i == j
    {
      HeavyRunsAlone(c, s, i, j);
    }
  }

  // ----- what the limits mean for the costs themselves -----

  /** Units that run side by side never cost more than the budget, nor are they more than
      the count cap allows. */
  lemma SideBySideWithinBudget(c: Config, s: State, i: nat, j: nat)
    requires ValidConfig(c) && Accounting(c, s) && i < j < |s.units| && Live(s.units[i]) && Live(s.units[j])
    ensures |s.units| == |c.costs| && TotalReal(HeldCosts(c, s.units)) <= c.budget
    ensures |LiveSet(s)| <= c.maxCount
  {
    forall k | 0 <= k < |s.units| && Live(s.units[k]) ensures c.costs[k] < c.budget {
      if c.costs[k] >= c.budget { HeavyRunsAlone(c, s, k, if k == i then j else i); }
    }
    assert HeldCosts(c, s.units) == LiveCosts(c, s.units);
    FlagsCount(s.units);
    assert {i, j} <= LiveSet(s);
    TwoMembers(LiveSet(s), i, j);
    hide TotalReal, Total;
  }

  lemma TwoMembers(live: set<int>, i: int, j: int)
    requires i != j && i in live && j in live
    ensures |live| >= 2
  {
    assert live == (live - {i, j}) + {i} + {j};
  }

  /** So it is in every interleaving of every run. */
  lemma NoOversubscription(c: Config, s: State, i: nat, j: nat)
    requires ValidConfig(c) && Reachable(c, s) && i < j < |s.units| && Live(s.units[i]) && Live(s.units[j])
    ensures |s.units| == |c.costs| && TotalReal(HeldCosts(c, s.units)) <= c.budget
    ensures |LiveSet(s)| <= c.maxCount
  {
    assert Accounting(c, s) by { ReachableInv(c, s); }
    SideBySideWithinBudget(c, s, i, j);
  }

  /** And they pack densely. The launcher is held back exactly when some unit holds a slot
      and one more would be over the count cap, or cost more than the budget, every unit's
      cost limited to the budget; otherwise the unit starts, unless the run was cancelled. */
  lemma HeldBackExactly(c: Config, s: State)
    requires ValidConfig(c) && Reachable(c, s) && s.launcher.Deciding? && s.launcher.next < |c.costs|
    ensures |s.units| == |c.costs| && Enabled(c, s, Decide)
    ensures var i, s' := s.launcher.next, Step(c, s, Decide);
            var cost := if c.costs[i] <= c.budget then c.costs[i] else c.budget;
            && (s'.launcher.Asleep? <==>
                  LiveSet(s) != {}
                  && (|LiveSet(s)| >= c.maxCount || TotalReal(LimitedCosts(c, s.units)) + cost > c.budget))
            && (!s'.launcher.Asleep? && s.cause.None? ==>
                  s'.launcher == Deciding(i + 1) && s'.units == s.units[i := Running])
            && (s'.launcher.Asleep? || s.cause.Some? ==> s'.units == s.units)
  {
    assert Accounting(c, s) && |s.units| == |c.costs| by { ReachableInv(c, s); }
    hide Reachable;
    NothingRunning(c, s);
    FlagsCount(s.units);
    LimitedIsClamped(c, s.units);
    assert LiveSet(s) != {} <==> s.running > 0 by { SomethingLive(s); }
    hide TotalReal, Total, LiveFlags, FailFlags, LiveCosts, LimitedCosts, Live;
  }

  lemma SomethingLive(s: State)
    ensures LiveSet(s) != {} <==> exists i | 0 <= i < |s.units| :: Live(s.units[i])
  {
    if i :| 0 <= i < |s.units| && Live(s.units[i]) { assert i in LiveSet(s); }
    if LiveSet(s) != {} { var i :| i in LiveSet(s); }
  }

  // ----- cancellation -----

  /** The unit has not got past the check of the context. */
  predicate Unchecked(u: Unit) { u.Idle? || u.Running? || u.Answered? || u.Released? || u.Abandoned? }

  lemma CancelledStep(c: Config, s: State, a: Action, i: nat)
    requires |s.units| == |c.costs| && Enabled(c, s, a) && s.cause.Some? && i < |s.units|
    ensures var s' := Step(c, s, a);
            && s'.cause == s.cause && |s'.units| == |s.units|
            && (s.units[i].Idle? ==> s'.units[i].Idle?)
            && (Unchecked(s.units[i]) ==> Unchecked(s'.units[i]))
  {
    hide Blocked;
  }

  /** From a cancellation on no unit is launched, and none that has not passed its context
      check by then posts a result or counts as completed, whatever still runs on. */
  lemma {:induction false} CancelStopsUnits(c: Config, before: seq<Action>, rest: seq<Action>, i: nat)
    requires ValidConfig(c) && Exec(c, before).Some? && Exec(c, before).value.cause.Some?
    requires Exec(c, before + rest).Some? && i < |c.costs|
    ensures var s, s' := Exec(c, before).value, Exec(c, before + rest).value;
            && |s.units| == |s'.units| == |s'.completed| == |c.costs| && s'.cause == s.cause
            && (s.units[i].Idle? ==> s'.units[i].Idle?)
            && (Unchecked(s.units[i]) ==>
                  Unchecked(s'.units[i]) && !s'.completed[i] && ResultsFor(s'.posts, i) == [])
  {
    hide Step, Enabled, Inv;
    ExecInv(c, before + rest);
    ExecInv(c, before);
    UncheckedIsSilent(c, Exec(c, before + rest).value, i);
    UncheckedIsSilent(c, Exec(c, before).value, i);
    if rest == [] {
      assert before + [] == before;
    } else {
      var n := |rest| - 1;
      assert (before + rest)[..|before + rest| - 1] == before + rest[..n];
      CancelStopsUnits(c, before, rest[..n], i);
      CancelledStep(c, Exec(c, before + rest[..n]).value, rest[n], i);
    }
    hide Exec, ResultsFor, Unchecked;
  }

  /** A unit that has not passed its context check has neither posted nor completed. */
  lemma UncheckedIsSilent(c: Config, s: State, i: nat)
    requires Inv(c, s) && i < |c.costs|
    ensures |s.units| == |s.completed| == |c.costs|
    ensures Unchecked(s.units[i]) ==> !s.completed[i] && ResultsFor(s.posts, i) == []
  {
    hide Accounting, Launched, ResultsFor;
  }

  // ----- progress -----

  /** The launcher never sleeps past an enabling change: while it is asleep its
      guard still holds, and a live unit will wake it. */
  lemma SleepIsJustified(c: Config, s: State)
    requires ValidConfig(c) && Reachable(c, s)
    requires s.launcher.Asleep?
    ensures s.launcher.next < |c.costs| && Blocked(c, s, s.launcher.next) && LiveSet(s) != {}
  {
    hide Reachable, Results;
    ReachableInv(c, s);
    NothingRunning(c, s);
    assert s.running > 0;
    hide Inv, Accounting, Launched, Blocked;
    var i :| 0 <= i < |s.units| && Live(s.units[i]);
    assert i in LiveSet(s);
  }

  function Advance(c: Config, s: State, i: nat): Action
    requires i < |s.units| && i < |c.truth| && !Settled(s.units[i])
  {
    match s.units[i]
    case Running => Answer(i, c.truth[i])
    case Answered(_) => Release(i)
    case Released(_) => CheckContext(i)
    case Checked(_) => Count(i)
    case Counted(_) => Post(i)
    case Posted(_) => Complete(i)
  }

  lemma IdleLauncherCanMove(c: Config, s: State) returns (a: Action)
    requires ValidConfig(c) && Accounting(c, s) && Launched(c, s) && !s.launcher.Gone?
    requires forall i | 0 <= i < |s.units| :: Settled(s.units[i])
    ensures !a.Cancel? && Enabled(c, s, a)
  {
    NothingRunning(c, s);
    a := if s.launcher.Deciding? then Decide else Join;
  }

  /** No reachable state before the return of runUnits is stuck. */
  lemma NeverStuck(c: Config, s: State) returns (a: Action)
    requires ValidConfig(c) && Reachable(c, s)
    requires !s.launcher.Gone?
    ensures !a.Cancel? && Enabled(c, s, a)
  {
    assert Accounting(c, s) && Launched(c, s) by { ReachableInv(c, s); }
    if i :| 0 <= i < |s.units| && !Settled(s.units[i]) {
      a := Advance(c, s, i);
    } else {
      a := IdleLauncherCanMove(c, s);
    }
  }

  function Rank(u: Unit): int {
    match u
    case Idle => 7
    case Running => 6
    case Answered(_) => 5
    case Released(_) => 4
    case Checked(_) => 3
    case Counted(_) => 2
    case Posted(_) => 1
    case Finished(_) => 0
    case Abandoned => 0
  }

  function LauncherRank(l: Launcher): int {
    match l
    case Deciding(_) => 3
    case Asleep(_) => 2
    case Joining(_) => 1
    case Gone(_) => 0
  }

  ghost function Ranks(units: seq<Unit>): seq<int> {
    seq(|units|, i requires 0 <= i < |units| => Rank(units[i]))
  }

  ghost function Measure(s: State): int {
    2 * Total(Ranks(s.units)) + LauncherRank(s.launcher)
  }

  lemma RankOfOne(units: seq<Unit>, i: nat, u: Unit)
    requires i < |units|
    ensures Total(Ranks(units[i := u])) == Total(Ranks(units)) - Rank(units[i]) + Rank(u)
  {
    TotalUpdate(Ranks(units), i, Rank(u));
    assert Ranks(units[i := u]) == Ranks(units)[i := Rank(u)];
    hide Total, Rank;
  }

  /** The unit that a step moves on, if any. */
  function Moved(s: State, a: Action): int {
    match a
    case Cancel(_) => -1
    case Join => -1
    case Decide => s.launcher.next
    case Answer(i, _) => i
    case Release(i) => i
    case CheckContext(i) => i
    case Count(i) => i
    case Post(i) => i
    case Complete(i) => i
  }

  /** A step that is not a cancellation lowers the launcher's rank, or some unit's by more
      than it raises the launcher's. */
  lemma StepRanks(c: Config, s: State, a: Action)
    requires |s.units| == |c.costs| && Launched(c, s) && Enabled(c, s, a)
    ensures var s', i := Step(c, s, a), Moved(s, a);
            if 0 <= i < |s.units|
            then s'.units == s.units[i := s'.units[i]]
                 && 2 * Rank(s'.units[i]) + LauncherRank(s'.launcher) < 2 * Rank(s.units[i]) + LauncherRank(s.launcher)
            else s'.units == s.units
                 && if a.Cancel? then s'.launcher == s.launcher
                    else LauncherRank(s'.launcher) < LauncherRank(s.launcher)
  {
    hide Blocked;
  }

  lemma MeasureFloor(s: State)
    ensures Measure(s) >= 0
  {
    TotalNonNegative(Ranks(s.units));
  }

  lemma MeasureDecreases(c: Config, s: State, a: Action)
    requires |s.units| == |c.costs| && Launched(c, s) && Enabled(c, s, a)
    ensures Measure(s) >= 0
    ensures !a.Cancel? ==> Measure(Step(c, s, a)) < Measure(s)
    ensures a.Cancel? ==> Measure(Step(c, s, a)) == Measure(s)
  {
    var s', i := Step(c, s, a), Moved(s, a);
    TotalNonNegative(Ranks(s.units));
    StepRanks(c, s, a);
    hide Step, Enabled, Launched, Rank, Total, Ranks;
    if 0 <= i < |s.units| { RankOfOne(s.units, i, s'.units[i]); }
  }

  ghost function Cancels(schedule: seq<Action>): int {
    if schedule == [] then 0 else
      Cancels(schedule[..|schedule| - 1]) + if schedule[|schedule| - 1].Cancel? then 1 else 0
  }

  lemma InitMeasure(c: Config, n: nat)
    requires n <= |c.costs|
    ensures Total(Ranks(Init(c).units[..n])) == 7 * n
  {
    if n > 0 {
      InitMeasure(c, n - 1);
      assert Ranks(Init(c).units[..n])[..n - 1] == Ranks(Init(c).units[..n - 1]);
    }
  }

  lemma StartMeasure(c: Config)
    ensures 0 <= Measure(Init(c)) == 14 * |c.costs| + 3
  {
    InitMeasure(c, |c.costs|);
    assert Init(c).units[..|c.costs|] == Init(c).units;
    TotalNonNegative(Ranks(Init(c).units));
  }

  lemma LastStep(c: Config, schedule: seq<Action>)
    requires Exec(c, schedule).Some?
    ensures schedule == [] ==> Exec(c, schedule).value == Init(c) && Cancels(schedule) == 0
    ensures schedule != [] ==>
              var before, a := schedule[..|schedule| - 1], schedule[|schedule| - 1];
              && Exec(c, before).Some? && Enabled(c, Exec(c, before).value, a)
              && Exec(c, schedule).value == Step(c, Exec(c, before).value, a)
              && Cancels(schedule) == Cancels(before) + if a.Cancel? then 1 else 0
  {
    hide Enabled, Step, Init;
  }

  /** However the goroutines interleave, runUnits returns within 14n + 3 of its own
      steps, provided every `run` returns. */
  lemma {:induction false} BoundedSteps(c: Config, schedule: seq<Action>)
    requires ValidConfig(c) && Exec(c, schedule).Some?
    ensures 0 <= Measure(Exec(c, schedule).value)
    ensures |schedule| - Cancels(schedule) <= 14 * |c.costs| + 3 - Measure(Exec(c, schedule).value)
  {
    LastStep(c, schedule);
    if schedule == [] {
      StartMeasure(c);
    } else {
      var before, a := schedule[..|schedule| - 1], schedule[|schedule| - 1];
      var s := Exec(c, before).value;
      ExecInv(c, before);
      BoundedSteps(c, before);
      ExecInv(c, schedule);
      hide Inv, Launched, Enabled, Step, Exec, Cancels, Measure;
      MeasureDecreases(c, s, a);
      MeasureFloor(Step(c, s, a));
    }
  }

  // ----- parallel refines serial -----

  datatype Outcome = Outcome(failed: nat, completed: seq<bool>, posts: seq<Result>)

  /** The reference: run the units one after another, with nothing in between. */
  function Serial(truth: seq<bool>): (o: Outcome)
    ensures |o.completed| == |o.posts| == |truth|
  {
    if truth == [] then Outcome(0, [], []) else
      var n := |truth| - 1;
      var before := Serial(truth[..n]);
      Outcome(before.failed + (if truth[n] then 0 else 1),
              before.completed + [true],
              before.posts + [Result(n, truth[n])])
  }

  lemma {:induction false} SerialPosts(truth: seq<bool>, i: nat)
    ensures ResultsFor(Serial(truth).posts, i) == if i < |truth| then [truth[i]] else []
  {
    if truth != [] {
      var n := |truth| - 1;
      SerialPosts(truth[..n], i);
      assert Serial(truth).posts[..n] == Serial(truth[..n]).posts;
    }
  }

  lemma {:induction false} SerialCompletes(truth: seq<bool>, i: nat)
    requires i < |truth|
    ensures Serial(truth).completed[i]
  {
    var n := |truth| - 1;
    if i < n { SerialCompletes(truth[..n], i); }
  }

  lemma {:induction false} SerialFailures(units: seq<Unit>, truth: seq<bool>)
    requires |units| == |truth|
    requires forall i | 0 <= i < |units| :: units[i] == Finished(truth[i])
    ensures Serial(truth).failed == Total(FailFlags(units))
  {
    if units != [] {
      var n := |units| - 1;
      SerialFailures(units[..n], truth[..n]);
      assert FailFlags(units)[..n] == FailFlags(units[..n]);
    }
  }

  lemma ResultsForGrow(a: seq<Result>, i: nat)
    ensures a == [] ==> ResultsFor(a, i) == []
    ensures a != [] ==> var n := |a| - 1;
                        ResultsFor(a, i) == ResultsFor(a[..n], i) + if a[n].unit == i then [a[n].ok] else []
  {
  }

  lemma {:induction false} SameResultsSameMultiset(a: seq<Result>, r: Result)
    ensures multiset(a)[r] == multiset(ResultsFor(a, r.unit))[r.ok]
  {
    hide ResultsFor;
    ResultsForGrow(a, r.unit);
    if a != [] {
      var n := |a| - 1;
      SameResultsSameMultiset(a[..n], r);
      assert a == a[..n] + [a[n]];
      assert multiset(a) == multiset(a[..n]) + multiset{a[n]};
    }
  }

  lemma {:induction false} OutOfRange(posts: seq<Result>, i: nat)
    requires forall k | 0 <= k < |posts| :: posts[k].unit != i
    ensures ResultsFor(posts, i) == []
  {
    if posts != [] { OutOfRange(posts[..|posts| - 1], i); }
  }

  lemma SamePosts(a: seq<Result>, truth: seq<bool>)
    requires forall i | 0 <= i < |truth| :: ResultsFor(a, i) == [truth[i]]
    requires forall k | 0 <= k < |a| :: a[k].unit < |truth|
    ensures multiset(a) == multiset(Serial(truth).posts)
  {
    var reference := Serial(truth).posts;
    hide Serial, ResultsFor;
    forall r: Result ensures multiset(a)[r] == multiset(reference)[r] {
      SameResultsSameMultiset(a, r);
      SameResultsSameMultiset(reference, r);
      SerialPosts(truth, r.unit);
      if r.unit >= |truth| { OutOfRange(a, r.unit); }
    }
  }

  /** For any cap, budget and interleaving, an uncancelled run returns exactly what
      running the units one by one returns, and posts the same results. */
  lemma ParallelRefinesSerial(c: Config, s: State)
    requires ValidConfig(c) && Reachable(c, s)
    requires s.launcher.Gone? && s.cause.None?
    ensures && s.failed == Serial(c.truth).failed
            && s.completed == Serial(c.truth).completed
            && multiset(s.posts) == multiset(Serial(c.truth).posts)
  {
    ReachableInv(c, s);
    forall i | 0 <= i < |s.units| ensures s.units[i] == Finished(c.truth[i]) {
      assert Settled(s.units[i]);
    }
    SerialFailures(s.units, c.truth);
    forall i | 0 <= i < |s.units| ensures s.completed[i] == Serial(c.truth).completed[i] {
      SerialCompletes(c.truth, i);
    }
    SamePosts(s.posts, c.truth);
  }

  /** What the caller of runUnits may rely on, cancelled or not. */
  ghost predicate Returned(c: Config, s: State) {
    && |s.units| == |s.completed| == |c.costs| == |c.truth|
    && (forall i | 0 <= i < |s.units| :: s.units[i].Idle? <==> s.launcher.next <= i)
    && (forall i | 0 <= i < |s.units| && s.completed[i] :: s.units[i] == Finished(c.truth[i]))
    && (forall i | 0 <= i < |s.units| ::
          ResultsFor(s.posts, i) == if s.completed[i] then [c.truth[i]] else [])
    && (forall i | 0 <= i < |s.units| && !s.completed[i] :: s.cause.Some?)
    && s.failed == |set i | 0 <= i < |s.units| && s.completed[i] && !c.truth[i]|
  }

  ghost function FailSet(units: seq<Unit>): set<int> { set i | 0 <= i < |units| && Failing(units[i]) }

  lemma FailSetGrows(units: seq<Unit>)
    requires units != []
    ensures var n := |units| - 1;
            && FailSet(units) == FailSet(units[..n]) + (if Failing(units[n]) then {n} else {})
            && n !in FailSet(units[..n])
  {
    hide Failing;
    var n := |units| - 1;
    assert forall i | 0 <= i < n :: units[..n][i] == units[i];
  }

  lemma {:induction false} FailCount(units: seq<Unit>)
    ensures Total(FailFlags(units)) == |FailSet(units)|
  {
    if units != [] {
      var n := |units| - 1;
      FailCount(units[..n]);
      assert FailFlags(units)[..n] == FailFlags(units[..n]);
      FailSetGrows(units);
      hide FailSet, Failing;
    } else {
      assert FailSet(units) == {};
    }
  }

  lemma ReturnedFailures(c: Config, s: State)
    requires Inv(c, s) && s.launcher.Gone?
    ensures s.failed == |set i | 0 <= i < |s.units| && s.completed[i] && !c.truth[i]|
  {
    hide ResultsFor;
    FailCount(s.units);
    assert FailSet(s.units) == (set i | 0 <= i < |s.units| && s.completed[i] && !c.truth[i]) by {
      forall i | 0 <= i < |s.units| ensures Failing(s.units[i]) <==> s.completed[i] && !c.truth[i] {
        assert Settled(s.units[i]);
      }
    }
  }

  lemma ReturnedFromInv(c: Config, s: State)
    requires Inv(c, s) && s.launcher.Gone?
    ensures Returned(c, s)
  {
    hide ResultsFor, Accounting;
    ReturnedFailures(c, s);
    forall i | 0 <= i < |s.units|
      ensures ResultsFor(s.posts, i) == if s.completed[i] then [c.truth[i]] else []
      ensures !s.completed[i] ==> s.cause.Some?
    {
      assert Settled(s.units[i]);
    }
  }

  /** Launched units form a prefix; `failed` counts the completed failures; a unit
      that did not complete means the run was cancelled, and it posted nothing. */
  lemma RunUnitsContract(c: Config, s: State)
    requires ValidConfig(c) && Reachable(c, s)
    requires s.launcher.Gone?
    ensures Returned(c, s)
  {
    ReachableInv(c, s);
    ReturnedFromInv(c, s);
  }
}
