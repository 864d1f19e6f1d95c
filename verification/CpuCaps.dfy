/** The docker `--cpus` caps of the units that run at the same time, against the budget
    that runUnits keeps its scheduler costs within. */
module CpuCaps {
  import opened Common
  import opened Sums
  import opened S = Scheduler
  import RepoConfig

  /** effectiveCPUs, as limitArgs passes it on: a check's own hint, else CHECK_CPUS; None
      is no limit. */
  function EffectiveCap(parse: RepoConfig.FloatParser, ck: RepoConfig.Check, global: Option<real>): Option<real> {
    if ck.cpus != "" then parse(ck.cpus) else global
  }

  /** Units are selected by flags. */
  function Flags(on: seq<bool>): seq<int> { seq(|on|, i requires 0 <= i < |on| => if on[i] then 1 else 0) }

  function Costs(c: Config, on: seq<bool>): seq<real>
    requires |on| == |c.costs|
  {
    seq(|on|, i requires 0 <= i < |on| => if on[i] then Clamp(c, i) else 0.0)
  }

  function Below(on: seq<bool>, j: nat): seq<bool> { seq(|on|, i requires 0 <= i < |on| => on[i] && i < j) }

  function CapsOf(caps: seq<Option<real>>, on: seq<bool>): seq<real>
    requires |on| == |caps|
  {
    seq(|on|, i requires 0 <= i < |on| => if on[i] && caps[i].Some? then caps[i].value else 0.0)
  }

  /** None of these units is unlimited, and together their caps fit the budget. */
  ghost predicate Within(c: Config, caps: seq<Option<real>>, on: seq<bool>)
    requires |on| == |caps|
  {
    (forall i | 0 <= i < |on| && on[i] :: caps[i].Some?) && TotalReal(CapsOf(caps, on)) <= c.budget
  }

  /** Unit j is admitted while those before it that are selected still run. */
  ghost predicate Joins(c: Config, on: seq<bool>, j: nat)
    requires |on| == |c.costs| && j < |on|
  {
    || Total(Flags(Below(on, j))) == 0
    || (Total(Flags(Below(on, j))) < Cap(c) && TotalReal(Costs(c, Below(on, j))) + Clamp(c, j) <= c.budget)
  }

  /** The selected units can run at the same time: every unit up to the last of them,
      selected or not, is admitted beside the selected ones before it. */
  ghost predicate CanRunTogether(c: Config, on: seq<bool>)
    requires |on| == |c.costs|
  {
    forall j, i | 0 <= j <= i < |on| && on[i] :: Joins(c, on, j)
  }

  function LiveOn(s: State): seq<bool> { seq(|s.units|, i requires 0 <= i < |s.units| => Live(s.units[i])) }

  // ----- sums over fewer units -----

  lemma {:induction false} FewerFlags(on: seq<bool>, fewer: seq<bool>)
    requires |fewer| == |on| && forall i | 0 <= i < |on| :: fewer[i] ==> on[i]
    ensures 0 <= Total(Flags(fewer)) <= Total(Flags(on))
  {
    if on != [] {
      var n := |on| - 1;
      FewerFlags(on[..n], fewer[..n]);
      assert Flags(on)[..n] == Flags(on[..n]) && Flags(fewer)[..n] == Flags(fewer[..n]);
    }
  }

  lemma {:induction false} LowerTotal(xs: seq<real>, ys: seq<real>)
    requires |xs| == |ys| && forall i | 0 <= i < |xs| :: xs[i] <= ys[i]
    ensures TotalReal(xs) <= TotalReal(ys)
  {
    if xs != [] { LowerTotal(xs[..|xs| - 1], ys[..|ys| - 1]); }
  }

  lemma JoinsFewer(c: Config, on: seq<bool>, fewer: seq<bool>, j: nat)
    requires ValidConfig(c) && |on| == |fewer| == |c.costs| && j < |on| && Joins(c, on, j)
    requires forall i | 0 <= i < |on| :: fewer[i] ==> on[i]
    ensures Joins(c, fewer, j)
  {
    FewerFlags(Below(on, j), Below(fewer, j));
    LowerTotal(Costs(c, Below(fewer, j)), Costs(c, Below(on, j)));
  }

  lemma JoinsSameBelow(c: Config, on: seq<bool>, other: seq<bool>, j: nat)
    requires |on| == |other| == |c.costs| && j < |on| && forall i | 0 <= i < j :: on[i] == other[i]
    ensures Joins(c, on, j) == Joins(c, other, j)
  {
    assert Below(on, j) == Below(other, j);
  }

  // ----- what is live can run together -----

  lemma LiveSums(c: Config, s: State)
    requires |s.units| == |c.costs|
    ensures LiveFlags(s.units) == Flags(LiveOn(s)) && LiveCosts(c, s.units) == Costs(c, LiveOn(s))
  {
  }

  /** Every launched unit joined the ones before it that are still live. */
  ghost predicate AllJoined(c: Config, s: State) {
    |s.units| == |c.costs| && forall j | 0 <= j < s.launcher.next && j < |c.costs| :: Joins(c, LiveOn(s), j)
  }

  /** The admission guard, read off the sums over the live units. */
  lemma AdmittedJoins(c: Config, s: State, i: nat)
    requires ValidConfig(c) && Accounting(c, s) && i < |c.costs| && !Blocked(c, s, i)
    requires Below(LiveOn(s), i) == LiveOn(s)
    ensures Joins(c, LiveOn(s), i)
  {
    LiveSums(c, s);
    TotalNonNegative(Flags(LiveOn(s)));
  }

  lemma DecideLaunches(c: Config, s: State)
    requires Launched(c, s) && Enabled(c, s, Decide)
    ensures var s', i := Decided(c, s), s.launcher.next;
            && |s'.units| == |s.units| && s'.launcher.next <= i + 1
            && (s'.launcher.next <= i ==> LiveOn(s') == LiveOn(s))
            && (s'.launcher.next > i ==>
                  i < |c.costs| && !Blocked(c, s, i) && Below(LiveOn(s), i) == LiveOn(s)
                  && forall k | 0 <= k < i :: LiveOn(s')[k] == LiveOn(s)[k])
  {
    hide Blocked;
  }

  lemma LiveLength(s: State)
    ensures |LiveOn(s)| == |s.units|
  {
  }

  lemma InvParts(c: Config, s: State)
    requires Inv(c, s)
    ensures Accounting(c, s) && Launched(c, s) && |s.units| == |c.costs|
  {
  }

  lemma DecideJoins(c: Config, s: State)
    requires ValidConfig(c) && Inv(c, s) && AllJoined(c, s) && s.launcher.Deciding? && s.launcher.next <= |c.costs|
    ensures AllJoined(c, Decided(c, s))
  {
    hide Inv, Accounting, Launched, Joins, Blocked, Below, LiveOn, Decided, ValidConfig;
    InvParts(c, s);
    var s', i := Decided(c, s), s.launcher.next;
    DecideLaunches(c, s);
    LiveLength(s);
    LiveLength(s');
    if s'.launcher.next > i {
      AdmittedJoins(c, s, i);
      forall j | 0 <= j <= i ensures Joins(c, LiveOn(s'), j) { JoinsSameBelow(c, LiveOn(s), LiveOn(s'), j); }
    }
  }

  lemma OtherStepsJoin(c: Config, s: State, a: Action)
    requires ValidConfig(c) && Inv(c, s) && AllJoined(c, s) && Enabled(c, s, a) && !a.Decide?
    ensures AllJoined(c, Step(c, s, a))
  {
    var s' := Step(c, s, a);
    var on, after := LiveOn(s), LiveOn(s');
    OtherStepsLaunchNothing(c, s, a);
    hide Inv, Enabled, Step, LiveOn, Joins;
    forall j | 0 <= j < s.launcher.next && j < |c.costs| ensures Joins(c, after, j) { JoinsFewer(c, on, after, j); }
  }

  lemma OtherStepsLaunchNothing(c: Config, s: State, a: Action)
    requires |s.units| == |c.costs| && Enabled(c, s, a) && !a.Decide?
    ensures var s' := Step(c, s, a);
            && s'.launcher.next == s.launcher.next && |LiveOn(s')| == |LiveOn(s)| == |s'.units| == |s.units|
            && forall i | 0 <= i < |s.units| :: LiveOn(s')[i] ==> LiveOn(s)[i]
  {
  }

  lemma {:induction false} JoinedRun(c: Config, schedule: seq<Action>)
    requires ValidConfig(c) && Exec(c, schedule).Some?
    ensures AllJoined(c, Exec(c, schedule).value)
  {
    if schedule != [] {
      var n := |schedule| - 1;
      var s, a := Exec(c, schedule[..n]).value, schedule[n];
      JoinedRun(c, schedule[..n]);
      ExecInv(c, schedule[..n]);
      if a.Decide? { DecideJoins(c, s); } else { OtherStepsJoin(c, s, a); }
    }
  }

  lemma LiveRunTogether(c: Config, s: State)
    requires ValidConfig(c) && Reachable(c, s)
    ensures |s.units| == |c.costs| && CanRunTogether(c, LiveOn(s))
  {
    var schedule :| Exec(c, schedule) == Some(s);
    JoinedRun(c, schedule);
    ReachableInv(c, s);
  }

  // ----- what can run together gets to -----

  /** The launcher is at unit j, and exactly the selected units before it still run. */
  ghost predicate Arranged(c: Config, s: State, on: seq<bool>, j: nat) {
    && Reachable(c, s) && |s.units| == |on| == |c.costs| && s.launcher == Deciding(j) && s.cause.None?
    && (forall i | 0 <= i < j && i < |on| :: if on[i] then s.units[i] == Running else s.units[i].Released?)
    && (forall i | j <= i < |on| :: s.units[i] == Idle)
  }

  lemma OneMoreStep(c: Config, s: State, a: Action)
    requires Reachable(c, s) && |s.units| == |c.costs| && Enabled(c, s, a)
    ensures Reachable(c, Step(c, s, a))
  {
    var schedule :| Exec(c, schedule) == Some(s);
    assert (schedule + [a])[..|schedule|] == schedule;
    assert Exec(c, schedule + [a]) == Some(Step(c, s, a));
  }

  lemma ArrangedSums(c: Config, s: State, on: seq<bool>, j: nat)
    requires ValidConfig(c) && Arranged(c, s, on, j) && j < |on| && Joins(c, on, j)
    ensures |s.units| == |c.costs| == |c.truth| && !Blocked(c, s, j)
  {
    assert Accounting(c, s) by { ReachableInv(c, s); }
    LiveSums(c, s);
    assert LiveOn(s) == Below(on, j);
    hide LiveFlags, LiveCosts, Flags, Costs, Below, Live, Total, TotalReal;
  }

  lemma ArrangeLaunch(c: Config, s: State, on: seq<bool>, j: nat) returns (s': State)
    requires ValidConfig(c) && Arranged(c, s, on, j) && j < |on| && Joins(c, on, j)
    ensures Reachable(c, s') && s' == Decided(c, s) && s'.units == s.units[j := Running]
    ensures s'.launcher == Deciding(j + 1) && s'.cause.None?
  {
    ArrangedSums(c, s, on, j);
    hide Blocked, Joins, Reachable;
    s' := Decided(c, s);
    OneMoreStep(c, s, Decide);
  }

  lemma ArrangeLeave(c: Config, s: State, j: nat) returns (s': State)
    requires ValidConfig(c) && Reachable(c, s) && |s.units| == |c.costs| && j < |s.units| && s.units[j] == Running
    requires s.cause.None? && s.launcher.Deciding?
    ensures Reachable(c, s') && s'.launcher == s.launcher && s'.cause.None?
    ensures |s'.units| == |s.units| && s'.units[j].Released?
    ensures forall i | 0 <= i < |s.units| && i != j :: s'.units[i] == s.units[i]
  {
    hide Reachable;
    OneMoreStep(c, s, Answer(j, c.truth[j]));
    s' := Step(c, s, Answer(j, c.truth[j]));
    OneMoreStep(c, s', Release(j));
    s' := Step(c, s', Release(j));
  }

  lemma ArrangeNext(c: Config, s: State, on: seq<bool>, j: nat) returns (s': State)
    requires ValidConfig(c) && Arranged(c, s, on, j) && j < |on| && Joins(c, on, j)
    ensures Arranged(c, s', on, j + 1)
  {
    s' := ArrangeLaunch(c, s, on, j);
    hide Reachable, Joins, ValidConfig, Decided;
    if !on[j] { s' := ArrangeLeave(c, s', j); }
  }

  lemma Arrange(c: Config, on: seq<bool>, j: nat) returns (s: State)
    requires ValidConfig(c) && |on| == |c.costs| && j <= |on| && forall i | 0 <= i < j :: Joins(c, on, i)
    ensures Arranged(c, s, on, j)
  {
    s := Init(c);
    assert Exec(c, []) == Some(s);
    for i := 0 to j
      invariant Arranged(c, s, on, i)
    {
      s := ArrangeNext(c, s, on, i);
    }
  }

  lemma TogetherIsReached(c: Config, on: seq<bool>) returns (s: State)
    requires ValidConfig(c) && |on| == |c.costs| && CanRunTogether(c, on)
    ensures Reachable(c, s) && LiveOn(s) == on
  {
    var last: nat := |on|;
    while last > 0 && !on[last - 1]
      invariant last <= |on| && forall i | last <= i < |on| :: !on[i]
    {
      last := last - 1;
    }
    s := Arrange(c, on, last);
  }

  // ----- the claim about the caps -----

  ghost predicate CapsHold(c: Config, caps: seq<Option<real>>) {
    forall s | Reachable(c, s) :: |LiveOn(s)| == |caps| && Within(c, caps, LiveOn(s))
  }

  /** The caps of the running containers never add up to more than the budget, in any
      interleaving, exactly when no set of units that can run together has caps that do. */
  lemma CapsHoldExactly(c: Config, caps: seq<Option<real>>)
    requires ValidConfig(c) && |caps| == |c.costs|
    ensures CapsHold(c, caps) <==>
            forall on | |on| == |caps| && CanRunTogether(c, on) :: Within(c, caps, on)
  {
    if CapsHold(c, caps) {
      forall on | |on| == |caps| && CanRunTogether(c, on) ensures Within(c, caps, on) {
        var s := TogetherIsReached(c, on);
      }
    }
    if forall on | |on| == |caps| && CanRunTogether(c, on) :: Within(c, caps, on) {
      forall s | Reachable(c, s) ensures |LiveOn(s)| == |caps| && Within(c, caps, LiveOn(s)) { LiveRunTogether(c, s); }
    }
  }

  /** It is enough that no cap exceeds the unit's clamped cost. */
  lemma LowCapsHold(c: Config, caps: seq<Option<real>>)
    requires ValidConfig(c) && |caps| == |c.costs|
    requires forall i | 0 <= i < |caps| :: caps[i].Some? && caps[i].value <= Clamp(c, i)
    ensures CapsHold(c, caps)
  {
    forall s | Reachable(c, s) ensures |LiveOn(s)| == |caps| && Within(c, caps, LiveOn(s)) {
      SchedulerSafety(c, s);
      LimitedIsClamped(c, s.units);
      LiveSums(c, s);
      LowerTotal(CapsOf(caps, LiveOn(s)), Costs(c, LiveOn(s)));
    }
  }

  function Only(n: nat, i: nat): seq<bool> { seq(n, k => k == i) }

  lemma OnlyJoins(c: Config, i: nat, j: nat)
    requires j <= i < |c.costs|
    ensures Joins(c, Only(|c.costs|, i), j)
  {
    TotalNonNegative(Flags(Below(Only(|c.costs|, i), j)));
  }

  lemma OnlyRuns(c: Config, i: nat)
    requires i < |c.costs|
    ensures CanRunTogether(c, Only(|c.costs|, i))
  {
    var on := Only(|c.costs|, i);
    hide Joins;
    forall j | 0 <= j <= i ensures Joins(c, on, j) {
      OnlyJoins(c, i, j);
    }
  }

  /** One cap is at most the sum of all. */
  lemma OneCap(caps: seq<Option<real>>, on: seq<bool>, i: nat)
    requires |on| == |caps| && i < |caps| && on[i] && caps[i].Some?
    requires forall k | 0 <= k < |caps| && caps[k].Some? :: caps[k].value > 0.0
    ensures caps[i].value <= TotalReal(CapsOf(caps, on))
  {
    var xs := CapsOf(caps, on);
    TotalRealUpdate(xs, i, 0.0);
    TotalRealNonNegative(xs[i := 0.0]);
  }

  /** It is needed that every single cap fits the budget: a hint above the budget is
      clamped for the scheduler but not for docker, and no hint without CHECK_CPUS is no cap. */
  lemma EachCapMustFit(c: Config, caps: seq<Option<real>>, i: nat)
    requires ValidConfig(c) && |caps| == |c.costs| && i < |caps| && CapsHold(c, caps)
    requires forall k | 0 <= k < |caps| && caps[k].Some? :: caps[k].value > 0.0
    ensures caps[i].Some? && caps[i].value <= c.budget
  {
    var on := Only(|caps|, i);
    OnlyRuns(c, i);
    CapsHoldExactly(c, caps);
    hide CapsHold, CanRunTogether, ValidConfig;
    assert |on| == |caps| && on[i] && Within(c, caps, on);
    OneCap(caps, on, i);
  }

  lemma TwoReals(a: real, b: real)
    ensures TotalReal([a, b]) == a + b
  {
    assert [a, b][..1] == [a] && [a][..0] == [];
    assert TotalReal([a]) == a;
  }

  lemma OneThenNone()
    ensures Total([0, 0]) == 0 && Total([1, 0]) == 1
  {
    assert [0, 0][..1] == [0] && [0][..0] == [] && [1, 0][..1] == [1] && [1][..0] == [];
    assert Total([0]) == 0 && Total([1]) == 1;
  }

  lemma TwoJoin(c: Config, on: seq<bool>)
    requires c == Config([1.0, 1.0], 2, 2.0, [true, true]) && on == [true, true]
    ensures CanRunTogether(c, on)
  {
    assert Flags(Below(on, 0)) == [0, 0] && Flags(Below(on, 1)) == [1, 0];
    assert Costs(c, Below(on, 1)) == [1.0, 0.0];
    OneThenNone();
    TwoReals(1.0, 0.0);
    hide Flags, Below, Costs, Total, TotalReal;
    assert Joins(c, on, 0) && Joins(c, on, 1);
    hide Joins;
  }

  /** Two checks without a hint, CHECK_CPUS=2 and a budget of 2: both are admitted at a
      cost of 1 each, and their containers may use 4. */
  lemma CapsCanExceed()
    ensures var c := Config([1.0, 1.0], 2, 2.0, [true, true]);
            ValidConfig(c) && !CapsHold(c, [Some(2.0), Some(2.0)])
  {
    var c, caps, on := Config([1.0, 1.0], 2, 2.0, [true, true]), [Some(2.0), Some(2.0)], [true, true];
    TwoJoin(c, on);
    assert CapsOf(caps, on) == [2.0, 2.0];
    TwoReals(2.0, 2.0);
    assert !Within(c, caps, on);
    CapsHoldExactly(c, caps);
    hide CapsHold, Within, CanRunTogether;
    assert CanRunTogether(c, on) && |on| == |caps|;
  }

  /** The hint of an accepted check is both its cost and its cap. */
  lemma HintIsCostAndCap(parse: RepoConfig.FloatParser, checks: seq<RepoConfig.Check>, i: nat, global: Option<real>)
    requires RepoConfig.Accepted(parse, checks) && i < |checks|
    ensures checks[i].cpus != "" ==>
              EffectiveCap(parse, checks[i], global) == Some(RepoConfig.CpuCost(parse, checks[i]))
              == parse(checks[i].cpus)
    ensures checks[i].cpus == "" ==>
              EffectiveCap(parse, checks[i], global) == global && RepoConfig.CpuCost(parse, checks[i]) == 1.0
  {
    RepoConfig.AcceptedExactly(parse, checks);
  }
}
