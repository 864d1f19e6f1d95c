/** `Runner.runCheck` from `docker start -a` on, with `dockerOutcome`: how one check's
    result is read off its container. The container, the attach stream, the per-check
    timeout and the run's cancellation all move on their own, between any two steps. */
module CheckOutcome {
  import opened Common

  /** The container as the daemon sees it. `Paused` stands for every state that is
      neither created nor over. */
  datatype Container = Created | Up | Paused | Exited(code: int) | Dead(code: int)

  predicate Over(c: Container) { c.Exited? || c.Dead? }

  /** What `docker inspect` prints: a container that is not over reports exit code 0. */
  datatype Inspection = Inspection(status: Container, code: int)

  function Inspect(c: Container): Inspection {
    Inspection(c, if Over(c) then c.code else 0)
  }

  datatype Pc =
    | Attaching                        // docker start -a has not returned
    | Attached                         // it has; deadline and cancellation not yet checked
    | Inspecting
    | Inspected(seen: Inspection)
    | Waiting                          // docker wait
    | Concluded(code: Option<int>)     // dockerOutcome returned (None: an error)
    | Done(ok: bool)

  datatype State = State(container: Container, expired: bool, cancelled: bool, pc: Pc)

  datatype Action =
    // the world
    | Start | Pause | Unpause | Exit(code: int) | Die(code: int) | Expire | Cancel
    // runCheck; `ok` says whether the docker CLI call itself succeeded
    | Detach | AfterStart | DoInspect(ok: bool) | Branch | WaitReturns(ok: bool) | Conclude

  const INIT := State(Created, false, false, Attaching)

  /** The context of the CLI calls: cut by the deadline or by cancellation. */
  predicate Cut(s: State) { s.expired || s.cancelled }

  predicate Enabled(s: State, a: Action) {
    match a
    case Start => s.container.Created?
    case Pause => s.container.Up?
    case Unpause => s.container.Paused?
    case Exit(_) => s.container.Up?
    case Die(code) => s.container.Up? || (s.container.Exited? && code == s.container.code)
    case Expire => true
    case Cancel => true
    // The attach stream ends when the container does, but it can also break, or never start.
    case Detach => s.pc.Attaching?
    case AfterStart => s.pc.Attached?
    case DoInspect(_) => s.pc.Inspecting?
    case Branch => s.pc.Inspected?
    // docker wait returns the exit code once the container is over, or fails at any time.
    case WaitReturns(ok) => s.pc.Waiting? && (ok ==> Over(s.container))
    case Conclude => s.pc.Concluded?
  }

  function Step(s: State, a: Action): State
    requires Enabled(s, a)
  {
    match a
    case Start => s.(container := Up)
    case Pause => s.(container := Paused)
    case Unpause => s.(container := Up)
    case Exit(code) => s.(container := Exited(code))
    case Die(code) => s.(container := Dead(code))
    case Expire => s.(expired := true)
    case Cancel => s.(cancelled := true)
    case Detach => s.(pc := Attached)
    case AfterStart => s.(pc := if Cut(s) then Done(false) else Inspecting)
    case DoInspect(ok) =>
      s.(pc := if ok then Inspected(Inspect(s.container)) else Concluded(None))
    case Branch =>
      var i := s.pc.seen;
      if Over(i.status) then s.(pc := Concluded(Some(i.code)))
      else if i.status.Created? then s.(pc := Concluded(None))
      else s.(pc := Waiting)
    case WaitReturns(ok) =>
      s.(pc := Concluded(if ok then Some(s.container.code) else None))
    case Conclude => s.(pc := Done(!Cut(s) && s.pc.code == Some(0)))
  }

  ghost function Exec(schedule: seq<Action>): Option<State> {
    if schedule == [] then Some(INIT) else
      var before := Exec(schedule[..|schedule| - 1]);
      if before.Some? && Enabled(before.value, schedule[|schedule| - 1])
      then Some(Step(before.value, schedule[|schedule| - 1])) else None
  }

  /** A docker call of runCheck failed, or it inspected the container before that started. */
  ghost predicate Unreadable(schedule: seq<Action>) {
    schedule != [] &&
    var before, a := schedule[..|schedule| - 1], schedule[|schedule| - 1];
    (Unreadable(before) || a == DoInspect(false) || a == WaitReturns(false) || (a.DoInspect? && Start !in before))
  }

  /** What has happened to the container and to the context. */
  ghost predicate WorldInv(schedule: seq<Action>, s: State) {
    && (s.container.Created? <==> Start !in schedule)
    && (s.expired <==> Expire in schedule)
    && (s.cancelled <==> Cancel in schedule)
  }

  /** A code is only ever read off a container that is over, and stays its code. */
  ghost predicate CodeInv(s: State, unreadable: bool) {
    match s.pc
    case Inspected(i) =>
      && (unreadable <==> i.status.Created?)
      && (Over(i.status) ==> Over(s.container) && s.container.code == i.code)
    case Concluded(code) =>
      && (code.None? <==> unreadable)
      && (code.Some? ==> Over(s.container) && s.container.code == code.value)
    case Done(ok) =>
      && (ok ==> !unreadable && Over(s.container) && s.container.code == 0)
      && (!ok ==> Cut(s) || unreadable || (Over(s.container) && s.container.code != 0))
    case _ => !unreadable
  }

  lemma WorldStep(schedule: seq<Action>, s: State, a: Action)
    requires WorldInv(schedule, s) && Enabled(s, a)
    ensures WorldInv(schedule + [a], Step(s, a))
  {
    assert forall x :: x in schedule + [a] <==> x in schedule || x == a;
  }

  lemma CodeStep(schedule: seq<Action>, s: State, a: Action)
    requires WorldInv(schedule, s) && CodeInv(s, Unreadable(schedule)) && Enabled(s, a)
    ensures CodeInv(Step(s, a), Unreadable(schedule + [a]))
  {
    assert (schedule + [a])[..|schedule|] == schedule;
  }

  lemma {:induction false} ExecInv(schedule: seq<Action>)
    requires Exec(schedule).Some?
    ensures WorldInv(schedule, Exec(schedule).value) && CodeInv(Exec(schedule).value, Unreadable(schedule))
  {
    if schedule != [] {
      var n := |schedule| - 1;
      ExecInv(schedule[..n]);
      assert schedule == schedule[..n] + [schedule[n]];
      WorldStep(schedule[..n], Exec(schedule[..n]).value, schedule[n]);
      CodeStep(schedule[..n], Exec(schedule[..n]).value, schedule[n]);
      hide WorldInv, CodeInv, Unreadable, Step, Enabled;
    }
  }

  /** A check scores as passed only if its container really exited with code 0, in every
      interleaving of attach breakage, exit, inspect, wait, timeout and cancellation. */
  lemma PassedMeansExitedZero(schedule: seq<Action>)
    requires Exec(schedule).Some? && Exec(schedule).value.pc == Done(true)
    ensures Over(Exec(schedule).value.container) && Exec(schedule).value.container.code == 0
  {
    ExecInv(schedule);
  }

  /** Exactly when a check passes: at the step that decides it, neither the deadline nor a
      cancellation has come, every docker call succeeded and inspect found the container
      started, and the container is over with code 0. */
  lemma PassesExactly(schedule: seq<Action>)
    requires Exec(schedule).Some? && Exec(schedule).value.pc.Done?
    requires schedule[|schedule| - 1].AfterStart? || schedule[|schedule| - 1].Conclude?
    ensures var s := Exec(schedule).value;
            s.pc.ok <==>
            && Expire !in schedule && Cancel !in schedule && !Unreadable(schedule)
            && Over(s.container) && s.container.code == 0
  {
    var n := |schedule| - 1;
    ExecInv(schedule);
    ExecInv(schedule[..n]);
    hide Unreadable;
  }

  /** So a check that was neither cut nor misread is decided by its exit code alone. */
  lemma DecidedByExitCode(schedule: seq<Action>)
    requires Exec(schedule).Some? && Exec(schedule).value.pc.Done?
    requires Expire !in schedule && Cancel !in schedule && !Unreadable(schedule)
    ensures var s := Exec(schedule).value; Over(s.container) && (s.pc.ok <==> s.container.code == 0)
  {
    ExecInv(schedule);
  }

  lemma DecisionStands(schedule: seq<Action>, a: Action)
    requires Exec(schedule).Some? && Exec(schedule).value.pc.Done? && Exec(schedule + [a]).Some?
    ensures Exec(schedule + [a]).value.pc == Exec(schedule).value.pc
  {
    assert (schedule + [a])[..|schedule|] == schedule;
  }

  /** The start breaks off, and inspect finds the container up. */
  lemma InspectedUp()
    ensures Exec([Start] + [Detach] + [AfterStart] + [DoInspect(true)]) ==
            Some(INIT.(container := Up, pc := Inspected(Inspection(Up, 0))))
  {
    assert Exec([]) == Some(INIT) && [] + [Start] == [Start];
    hide Exec;
    Extend([], Start);
    assert Exec([Start]) == Some(INIT.(container := Up));
    Extend([Start], Detach);
    assert Exec([Start] + [Detach]) == Some(INIT.(container := Up, pc := Attached));
    Extend([Start] + [Detach], AfterStart);
    assert Exec([Start] + [Detach] + [AfterStart]) == Some(INIT.(container := Up, pc := Inspecting));
    Extend([Start] + [Detach] + [AfterStart], DoInspect(true));
  }

  /** The reading this code avoids: trusting the code of whatever inspect finds. For every
      failing exit code there is a run in which inspect reports 0, so that reading would
      pass the check, and in which the container then fails and so does the check. */
  lemma NaiveReadingPassesFailures(code: int)
    requires code != 0
    ensures var early := Exec([Start] + [Detach] + [AfterStart] + [DoInspect(true)]);
            early.Some? && early.value.pc.Inspected? && early.value.pc.seen.code == 0
    ensures var late := Exec([Start] + [Detach] + [AfterStart] + [DoInspect(true)]
                             + [Exit(code)] + [Branch] + [WaitReturns(true)] + [Conclude]);
            late.Some? && late.value.container == Exited(code) && late.value.pc == Done(false)
  {
    var a4 := [Start] + [Detach] + [AfterStart] + [DoInspect(true)];
    InspectedUp();
    hide Exec;
    Extend(a4, Exit(code));
    var failed := INIT.(container := Exited(code), pc := Inspected(Inspection(Up, 0)));
    assert Exec(a4 + [Exit(code)]) == Some(failed);
    Extend(a4 + [Exit(code)], Branch);
    assert Exec(a4 + [Exit(code)] + [Branch]) == Some(failed.(pc := Waiting));
    Extend(a4 + [Exit(code)] + [Branch], WaitReturns(true));
    assert Exec(a4 + [Exit(code)] + [Branch] + [WaitReturns(true)]) == Some(failed.(pc := Concluded(Some(code))));
    Extend(a4 + [Exit(code)] + [Branch] + [WaitReturns(true)], Conclude);
  }

  lemma Extend(schedule: seq<Action>, a: Action)
    requires Exec(schedule).Some? && Enabled(Exec(schedule).value, a)
    ensures Exec(schedule + [a]) == Some(Step(Exec(schedule).value, a))
  {
    assert (schedule + [a])[..|schedule|] == schedule;
  }
}
