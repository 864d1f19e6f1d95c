/** Crash recovery: reconcileInFlight plus one uninterrupted sweep, started from
    whatever a process left behind when it died at any point, even in the middle of an
    earlier recovery. */
module Recovery {
  import opened Common
  import opened Lifecycle
  import opened Safety = LifecycleSafety
  import Loops = LifecycleLoop
  import Store = LifecycleStore
  import G = Gate
  import S = Scheduler

  /** A gate context, that is any context but the promotion's, is pending. */
  ghost predicate Owed(s: State, p: Place) { Open(s.ledger, p) && p.context != Promote }

  ghost predicate Waiting(s: State, c: Commit) { exists context :: Owed(s, Place(c, context)) }

  /** Nothing but a branch at the commit leads the engine to it. */
  ghost predicate NeedsItsTip(s: State, c: Commit) { Waiting(s, c) && !MarkedInFlight(s.inFlight, c) }

  /** A new process over the persisted state and the ledger of a dead one. While no
      process runs, branches stay at the commits that need their tip. */
  ghost predicate Restarts(dead: State, r: State) {
    && Starts(r) && r.seen == dead.seen && r.last == dead.last && r.inFlight == dead.inFlight && r.ledger == dead.ledger
    && forall k: Key | k.BranchKey? && k in dead.heads && NeedsItsTip(dead, Commit(KeyRepo(k), dead.heads[k].sha)) ::
         k in r.heads && r.heads[k].sha == dead.heads[k].sha
  }

  /** Statuses of marked commits can be listed; and a branch whose tip is waiting neither
      fails to be read nor, until a marker leads to that commit, moves. Other branches and
      all pull requests may move and fail at will. Shutdown may be asked for at any time;
      from then on every read may fail. */
  ghost predicate Uninterrupted(s: State, a: Action) {
    match a
    case Move(k, _) => k.BranchKey? && k in s.heads ==> !NeedsItsTip(s, Commit(KeyRepo(k), s.heads[k].sha))
    case LsRemote(ok) =>
      !ok && !s.shutdown && s.pc.Polling? && BranchKey(s.pc.loop.ref) in s.heads ==>
        !Waiting(s, Commit(s.pc.loop.ref.repo, s.heads[BranchKey(s.pc.loop.ref)].sha))
    case Clone(ok) => !ok && !s.shutdown && s.pc.Sampled? ==> !Waiting(s, Commit(s.pc.loop.ref.repo, s.pc.tip))
    case Reconcile(k, _, listed) =>
      && (listed.Some? || s.shutdown)
      && (listed.Some? && k in s.inFlight ==>
            forall c | Open(s.ledger, Place(Commit(KeyRepo(k), s.inFlight[k]), c)) :: c in listed.value)
    case _ => true
  }

  ghost predicate UninterruptedRun(w: World, r: State, schedule: seq<Action>) {
    schedule == [] ||
    (UninterruptedRun(w, r, schedule[..|schedule| - 1])
     && Exec(w, r, schedule[..|schedule| - 1]).Some?
     && Uninterrupted(Exec(w, r, schedule[..|schedule| - 1]).value, schedule[|schedule| - 1]))
  }

  // ----- what leads to a waiting commit -----

  /** One of these refs has the commit as its tip. */
  predicate Due(heads: map<Key, Head>, refs: seq<Ref>, c: Commit) {
    exists i :: 0 <= i < |refs| && AtHead(heads, refs[i], c)
  }

  predicate AtHead(heads: map<Key, Head>, ref: Ref, c: Commit) {
    ref.repo == c.repo && BranchKey(ref) in heads && heads[BranchKey(ref)].sha == c.sha
  }

  /** The refs the sweep has still to poll. The next process polls all of them. */
  function Ahead(w: World, s: State, swept: bool): seq<Ref> {
    if s.shutdown || s.pc.Boot? || s.pc.Resolving? || (s.pc.Idle? && !swept) then w.refs
    else if s.pc.Polling? then [s.pc.loop.ref] + s.rest
    else s.rest
  }

  /** The commit has been sampled or cloned, and its run is next. */
  predicate OnItsWay(pc: Pc, c: Commit) {
    match pc
    case Sampled(loop, tip) => c == Commit(loop.ref.repo, tip)
    case Cloned(loop, _, sha, _) => c == Commit(loop.ref.repo, sha)
    case _ => false
  }

  ghost predicate Leads(w: World, s: State, swept: bool, c: Commit) {
    MarkedInFlight(s.inFlight, c) || Due(s.heads, Ahead(w, s, swept), c) || OnItsWay(s.pc, c)
  }

  /** Reconciliation is about to post on every waiting context of the commit it is at, and
      a run that has been judged has left none waiting. */
  predicate NotDone(s: State, p: Place) {
    match s.pc
    case Resolving(k, cs, _) => k in s.inFlight && (p.commit == Commit(KeyRepo(k), s.inFlight[k]) ==> p.context in cs)
    case Superseding(run) => p.commit != RunCommit(run)
    case Promoting(run, _, _) => p.commit != RunCommit(run)
    case Promoted(run) => p.commit != RunCommit(run)
    case Marking(run) => p.commit != RunCommit(run)
    case Clearing(run, _) => p.commit != RunCommit(run)
    case _ => true
  }

  ghost predicate OnlyMarker(s: State, run: Run) { s.inFlight == map[RunKey(run) := run.sha] }

  /** Only the markers still to be looked at and the current run's are left; a shutdown in
      the middle of reconciliation, or of a run, leaves more. */
  ghost predicate Markers(s: State) {
    match s.pc
    case Boot(todo) => todo <= s.inFlight.Keys && (!s.shutdown ==> s.inFlight.Keys == todo)
    case Resolving(k, _, todo) =>
      k !in todo && todo + {k} <= s.inFlight.Keys && (!s.shutdown ==> s.inFlight.Keys == todo + {k})
    case Running(run) => OnlyMarker(s, run)
    case Superseding(run) => OnlyMarker(s, run)
    case Promoting(run, _, _) => OnlyMarker(s, run)
    case Promoted(run) => OnlyMarker(s, run)
    case Marking(run) => OnlyMarker(s, run)
    case Clearing(run, _) => OnlyMarker(s, run)
    case Idle => !s.shutdown ==> s.inFlight == map[]
    case Stopped => s.shutdown
    case _ => s.inFlight == map[]
  }

  /** A sampled tip that is waiting is what gets cloned, run and marked; and until its run
      begins it stays the tip. */
  ghost predicate TipSafe(s: State) {
    match s.pc
    case Sampled(loop, tip) =>
      var c := Commit(loop.ref.repo, tip);
      Waiting(s, c) ==> AtHead(s.heads, loop.ref, c)
    case Cloned(loop, tip, sha, _) =>
      var c := Commit(loop.ref.repo, sha);
      && (tip == sha || !Waiting(s, Commit(loop.ref.repo, tip)))
      && (Waiting(s, c) ==> AtHead(s.heads, loop.ref, c))
    case Running(run) => RunTipSafe(s, run)
    case Superseding(run) => RunTipSafe(s, run)
    case Promoting(run, _, _) => RunTipSafe(s, run)
    case Promoted(run) => RunTipSafe(s, run)
    case Marking(run) => RunTipSafe(s, run)
    case _ => true
  }

  ghost predicate RunTipSafe(s: State, run: Run) {
    run.origin.FromBranch? ==>
      run.origin.tip == run.sha || !Waiting(s, Commit(run.origin.loop.ref.repo, run.origin.tip))
  }

  function CurrentRef(pc: Pc): Option<Ref> {
    match pc
    case Polling(loop) => Some(loop.ref)
    case Sampled(loop, _) => Some(loop.ref)
    case Cloned(loop, _, _, _) => Some(loop.ref)
    case Running(run) => Some(RefOf(run.origin))
    case Superseding(run) => Some(RefOf(run.origin))
    case Promoting(run, _, _) => Some(RefOf(run.origin))
    case Promoted(run) => Some(RefOf(run.origin))
    case Marking(run) => Some(RefOf(run.origin))
    case Clearing(run, _) => Some(RefOf(run.origin))
    case Skipping(run, _) => Some(RefOf(run.origin))
    case Returned(loop, _) => Some(loop.ref)
    case Pulls(ref) => Some(ref)
    case _ => None
  }

  /** The sweep only visits watched refs, so every marker is a watched ref's. */
  ghost predicate RefsWatched(w: World, s: State) {
    && (forall ref | ref in s.rest :: ref in w.refs)
    && (CurrentRef(s.pc).Some? ==> CurrentRef(s.pc).value in w.refs)
    && forall k | k in s.inFlight :: Watched(w, k)
  }

  /** The order of the phases. */
  ghost predicate Phase(s: State, swept: bool) {
    && (swept ==> !s.pc.Boot? && !s.pc.Resolving?)
    && (!swept ==> s.pc.Boot? || s.pc.Resolving? || (s.pc.Idle? && s.rest == []))
  }

  ghost predicate Frame(w: World, s: State, swept: bool) {
    Phase(s, swept) && RefsWatched(w, s) && Markers(s)
  }

  ghost predicate Looked(w: World, s: State, swept: bool, p: Place) {
    p.commit !in s.seen && Known(w, p.commit, p.context) && NotDone(s, p) && Leads(w, s, swept, p.commit)
  }

  ghost predicate OwedInv(w: World, s: State, swept: bool) {
    forall p | Owed(s, p) :: Looked(w, s, swept, p)
  }

  ghost predicate RecoveryInv(w: World, s: State, swept: bool) {
    Frame(w, s, swept) && TipSafe(s) && OwedInv(w, s, swept)
  }

  /** What recovery relies on at its start: every gate context that is pending belongs to
      an unprocessed commit that a marker or a watched tip leads to. */
  ghost predicate Recoverable(w: World, r: State) {
    && (forall p | Owed(r, p) ::
          p.commit !in r.seen && Known(w, p.commit, p.context)
          && (MarkedInFlight(r.inFlight, p.commit) || Due(r.heads, w.refs, p.commit)))
    && forall k | k in r.inFlight :: Watched(w, k)
  }

  // ----- a finished run owes nothing -----

  /** Every gate context of the configuration has a last post, and it is terminal. */
  lemma ConcludedCloses(w: World, c: Commit, r: G.Reading, g: G.State, context: Context)
    requires Reads(w, c, r) && G.Inv(r, g) && g.pc.Done? && (g.pc.completed || G.WasSuperseded(g))
    requires Known(w, c, context) && context != Promote
    ensures context != Rollup || g.pc.completed ==>
              Latest(g.log, context).Some? && Latest(g.log, context) != Some(Pending)
  {
    hide S.Inv;
    if r.Some? {
      G.FinishedFromInv(r.value, g);
      PlanContext(r.value, g, context);
      if context !in r.value.contexts { G.OtherTrace(r.value, g, context); }
    } else {
      assert g.log == [] + [G.Post(Rollup, Error)];
      LatestAppend([], G.Post(Rollup, Error), context);
    }
  }

  lemma LedgerAt(w: World, v: View, run: Run, before: set<Place>, p: Place)
    requires RunOpen(w, v, run, before) && p.commit == RunCommit(run)
    requires Latest(run.posts, p.context).Some? && Latest(run.posts, p.context) != Some(Pending)
    ensures !Open(v.ledger, p)
  {
    hide G.Inv;
    OverlayAt(run.base, RunCommit(run), run.posts, p);
  }

  /** The rollup that the caller adds to a superseded run closes what was left open. */
  lemma SupersededOwesNothing(w: World, v: View, run: Run, before: set<Place>, p: Place)
    requires RunOpen(w, v, run, before) && run.posts == run.gate.log && p.commit == RunCommit(run)
    requires run.gate.pc.Done? && G.WasSuperseded(run.gate) && Known(w, p.commit, p.context) && p.context != Promote
    ensures !Open(v.ledger[Place(p.commit, Rollup) := Error], p)
  {
    hide G.Inv, Reads, Overlay, Known;
    OpenRunFacts(w, v, run, before);
    ReadsOf(w, v, run, before);
    ConcludedCloses(w, p.commit, run.reading, run.gate, p.context);
    hide RunOpen;
    if p.context != Rollup { LedgerAt(w, v, run, before, p); }
  }

  lemma CompletedOwesNothing(w: World, v: View, run: Run, before: set<Place>, p: Place)
    requires RunOpen(w, v, run, before) && run.posts == run.gate.log && p.commit == RunCommit(run)
    requires run.gate.pc.Done? && run.gate.pc.completed && Known(w, p.commit, p.context) && p.context != Promote
    ensures !Open(v.ledger, p)
  {
    hide G.Inv, Reads, Overlay, Known;
    OpenRunFacts(w, v, run, before);
    ReadsOf(w, v, run, before);
    ConcludedCloses(w, p.commit, run.reading, run.gate, p.context);
    hide RunOpen;
    LedgerAt(w, v, run, before, p);
  }

  lemma RunningFacts(w: World, s: State, before: set<Place>)
    requires LedgerInv(w, s, before) && s.pc.Running?
    ensures RunOpen(w, ViewOf(s), s.pc.run, before) && s.pc.run.posts == s.pc.run.gate.log
  {
    hide RunOpen;
  }

  lemma JudgedLedger(w: World, s: State, p: Place)
    requires s.pc.Running? && s.pc.run.gate.pc.Done? && !JudgeStep(w, s).pc.Stopped? && p.context != Promote
    ensures var run := s.pc.run;
            if G.WasSuperseded(run.gate) && !run.gate.pc.completed
            then JudgeStep(w, s).ledger == s.ledger[Place(RunCommit(run), Rollup) := Error]
            else !s.shutdown && (Open(JudgeStep(w, s).ledger, p) <==> Open(s.ledger, p))
  {
    hide G.WasSuperseded, PromoteTarget, RunCommit;
  }

  /** Once a run is judged, unless the engine stops there, its commit has no open gate context. */
  lemma JudgedOwesNothing(w: World, s: State, before: set<Place>, p: Place)
    requires LedgerInv(w, s, before) && s.pc.Running? && s.pc.run.gate.pc.Done? && !JudgeStep(w, s).pc.Stopped?
    requires p.commit == RunCommit(s.pc.run) && Known(w, p.commit, p.context) && p.context != Promote
    ensures !Open(JudgeStep(w, s).ledger, p)
  {
    RunningFacts(w, s, before);
    JudgedLedger(w, s, p);
    hide LedgerInv, RunOpen, Known, G.WasSuperseded, RunCommit, JudgeStep, Open;
    var run := s.pc.run;
    if G.WasSuperseded(run.gate) && !run.gate.pc.completed {
      SupersededOwesNothing(w, ViewOf(s), run, before, p);
    } else {
      if !G.WasSuperseded(run.gate) { UncutCompleted(w, ViewOf(s), run, before); }
      CompletedOwesNothing(w, ViewOf(s), run, before, p);
    }
  }

  /** A run that was not superseded and did not run into a shutdown has completed. */
  lemma UncutCompleted(w: World, v: View, run: Run, before: set<Place>)
    requires RunOpen(w, v, run, before) && run.gate.pc.Done? && !v.shutdown && !G.WasSuperseded(run.gate)
    ensures run.gate.pc.completed
  {
    hide RunOpen, G.Inv, G.ValidReading;
    OpenRunFacts(w, v, run, before);
    IncompleteMeansCut(run.reading, run.gate);
  }

  lemma KnownRollup(w: World, c: Commit)
    ensures Known(w, c, Rollup)
  {
  }

  lemma ReadsOf(w: World, v: View, run: Run, before: set<Place>)
    requires RunOpen(w, v, run, before)
    ensures Reads(w, RunCommit(run), run.reading)
    ensures RunCommit(run) !in v.seen
  {
  }

  // ----- the frame -----

  /** A step within a run, or outside any, that leaves the maps and the sweep alone. */
  predicate SameFrame(s: State, s': State) {
    && s'.inFlight == s.inFlight && s'.rest == s.rest && (s.shutdown ==> s'.shutdown)
    && match s'.pc
       case Running(run) => s.pc.Running? && SameOrigin(run, s.pc.run)
       case Superseding(run) => BusyWith(s.pc, run)
       case Promoting(run, _, _) => BusyWith(s.pc, run)
       case Promoted(run) => BusyWith(s.pc, run)
       case Marking(run) => BusyWith(s.pc, run)
       case Clearing(run, _) => BusyWith(s.pc, run)
       case Stopped => s.pc.Stopped? || (s'.shutdown && !s.pc.Boot? && !s.pc.Resolving? && !s.pc.Idle?)
       case _ => s'.pc == s.pc
  }

  predicate SameOrigin(run: Run, other: Run) { run.origin == other.origin && run.sha == other.sha }

  predicate BusyWith(pc: Pc, run: Run) {
    match pc
    case Running(other) => SameOrigin(run, other)
    case Superseding(other) => SameOrigin(run, other)
    case Promoting(other, _, _) => SameOrigin(run, other)
    case Promoted(other) => SameOrigin(run, other)
    case Marking(other) => SameOrigin(run, other)
    case Clearing(other, _) => SameOrigin(run, other)
    case _ => false
  }

  lemma SameFrameKeeps(w: World, s: State, s': State, swept: bool)
    requires Frame(w, s, swept) && SameFrame(s, s')
    ensures Frame(w, s', swept)
  {
    hide Watched, RunCommit;
  }

  lemma FrameWithin(w: World, s: State, a: Action)
    requires Enabled(w, s, a) && (a.Move? || a.Shut? || a.Expire? || a.Observe? || a.Fire? || a.Gate?)
    ensures SameFrame(s, Step(w, s, a))
  {
    hide Step, Enabled, G.Step, G.Enabled, Posted, RunCommit;
    UnfoldWithin(w, s, a);
  }

  lemma FrameJudges(w: World, s: State)
    requires s.pc.Running? && s.pc.run.gate.pc.Done?
    ensures SameFrame(s, JudgeStep(w, s))
  {
    hide Posted, PromoteTarget, G.WasSuperseded, RunCommit;
  }

  lemma FramePromotes(s: State, ok: bool)
    requires s.pc.Promoting?
    ensures SameFrame(s, AttemptStep(s, ok))
  {
    hide Posted, RunCommit;
  }

  lemma FrameMarks(s: State)
    requires s.pc.Marking?
    ensures SameFrame(s, MarkStep(s))
  {
    hide RunCommit;
  }

  lemma FrameReconciles(w: World, s: State, a: Action)
    requires Frame(w, s, false) && s.pc.Boot? && a.Reconcile? && Uninterrupted(s, a)
    requires a.key in s.pc.todo && a.key in s.inFlight && (a.key.BranchKey? && a.lsOk ==> a.key in s.heads)
    ensures Frame(w, ReconcileStep(w, s, a.key, a.lsOk, a.listed), false)
  {
    assert (s.inFlight - {a.key}).Keys == s.inFlight.Keys - {a.key};
    assert Watched(w, a.key);
    hide Watched, Waiting;
  }

  lemma FrameBoots(w: World, s: State, a: Action)
    requires Frame(w, s, false) && Enabled(w, s, a) && (a.Resolve? || a.BootDone?)
    ensures Frame(w, Step(w, s, a), false)
  {
    hide Step, Enabled, Watched;
    UnfoldBoot(w, s, a);
  }

  lemma FrameSweeps(w: World, s: State, a: Action, swept: bool)
    requires Frame(w, s, swept) && Enabled(w, s, a)
    requires a.StartSweep? || a.NextRef? || a.PullsDone? || a.LeaveBranch?
    ensures Frame(w, Step(w, s, a), swept || a.StartSweep?)
  {
    hide Step, Enabled, Watched;
    UnfoldSweep(w, s, a);
  }

  /** Nothing but the pc changes, and the sweep stays at the same ref. */
  predicate SameRef(s: State, s': State) {
    && s'.inFlight == s.inFlight && s'.rest == s.rest && s'.shutdown == s.shutdown
    && CurrentRef(s'.pc) == CurrentRef(s.pc)
    && (s.pc.Polling? || s.pc.Sampled? || s.pc.Cloned?)
    && (s'.pc.Sampled? || s'.pc.Cloned? || s'.pc.Returned? || s'.pc.Pulls?)
  }

  lemma SameRefKeeps(w: World, s: State, s': State)
    requires Frame(w, s, true) && SameRef(s, s')
    ensures Frame(w, s', true)
  {
    hide Watched, CurrentRef;
  }

  lemma LsRemoteSameRef(s: State, ok: bool)
    requires s.pc.Polling? && (ok ==> BranchKey(s.pc.loop.ref) in s.heads)
    ensures SameRef(s, LsRemoteStep(s, ok))
  {
  }

  lemma CloneSameRef(s: State, ok: bool)
    requires s.pc.Sampled? && (ok ==> BranchKey(s.pc.loop.ref) in s.heads)
    ensures SameRef(s, CloneStep(s, ok))
  {
  }

  lemma FramePolls(w: World, s: State, a: Action)
    requires Enabled(w, s, a) && (a.LsRemote? || a.Clone? || a.SkipClone?)
    ensures SameRef(s, Step(w, s, a))
  {
    hide Step, Enabled, LsRemoteStep, CloneStep;
    UnfoldPoll(w, s, a);
    match a
    case LsRemote(ok) =>
      hide SameRef;
      LsRemoteSameRef(s, ok);
    case Clone(ok) =>
      hide SameRef;
      CloneSameRef(s, ok);
    case SkipClone =>
  }

  lemma FrameBegins(w: World, s: State, run: Run)
    requires Frame(w, s, true) && (s.pc.Cloned? || s.pc.Pulls?) && CurrentRef(s.pc) == Some(RefOf(run.origin))
    ensures Frame(w, Begin(s, run), true)
  {
    var ref := RefOf(run.origin);
    var i :| 0 <= i < |w.refs| && w.refs[i] == ref;
    assert w.refs[i].repo == ref.repo;
    assert Watched(w, RunKey(run));
    hide Watched;
  }

  lemma FrameClearsSuperseded(w: World, s: State)
    requires Frame(w, s, true) && s.pc.Superseding?
    ensures Frame(w, ClearSupersededStep(s), true)
  {
    hide Watched, RunCommit;
    assert (s.inFlight - {RunKey(s.pc.run)}).Keys <= s.inFlight.Keys;
  }

  lemma FrameClears(w: World, s: State, skipped: seq<Sha>)
    requires Frame(w, s, true) && s.pc.Clearing?
    ensures Frame(w, ClearStep(w, s, skipped), true)
  {
    hide Watched, G.WasSuperseded, RunCommit;
    assert (s.inFlight - {RunKey(s.pc.run)}).Keys <= s.inFlight.Keys;
  }

  lemma FrameSkips(w: World, s: State)
    requires Frame(w, s, true) && s.pc.Skipping? && s.pc.run.origin.FromBranch?
    ensures Frame(w, SkipStep(s), true)
  {
    hide Watched, G.WasSuperseded, RunCommit, Posted;
  }

  lemma FrameLeaves(w: World, s: State, a: Action)
    requires Frame(w, s, true) && Enabled(w, s, a) && (a.ClearSuperseded? || a.Clear? || a.Skip?)
    ensures Frame(w, Step(w, s, a), true)
  {
    hide Step, Enabled, Frame, ClearSupersededStep, ClearStep, SkipStep;
    UnfoldLeave(w, s, a);
    match a
    case ClearSuperseded => FrameClearsSuperseded(w, s);
    case Clear(skipped) => FrameClears(w, s, skipped);
    case Skip => FrameSkips(w, s);
  }

  // ----- every uninterrupted step keeps the recovery invariant -----

  lemma TipIsDue(w: World, heads: map<Key, Head>, k: Key, c: Commit)
    requires k.BranchKey? && Watched(w, k) && k in heads && heads[k].sha == c.sha && KeyRepo(k) == c.repo
    ensures Due(heads, w.refs, c)
  {
    var i :| 0 <= i < |w.refs| && w.refs[i] == k.ref;
    assert BranchKey(w.refs[i]) == k;
  }

  /** A move that does not touch a tip the commit needs leaves it due. */
  lemma StillDue(s: State, k: Key, sha: Sha, refs: seq<Ref>, p: Place)
    requires Uninterrupted(s, Move(k, sha)) && Owed(s, p) && !MarkedInFlight(s.inFlight, p.commit)
    requires Due(s.heads, refs, p.commit)
    ensures Due(s.heads[k := Head(sha, Moves(s.heads, k) + 1)], refs, p.commit)
  {
    var i :| 0 <= i < |refs| && AtHead(s.heads, refs[i], p.commit);
    StillAtHead(s, k, sha, refs[i], p);
  }

  lemma StillAtHead(s: State, k: Key, sha: Sha, ref: Ref, p: Place)
    requires Uninterrupted(s, Move(k, sha)) && Owed(s, p) && !MarkedInFlight(s.inFlight, p.commit)
    requires AtHead(s.heads, ref, p.commit)
    ensures AtHead(s.heads[k := Head(sha, Moves(s.heads, k) + 1)], ref, p.commit)
  {
    assert Owed(s, Place(p.commit, p.context)) && Waiting(s, p.commit);
    assert k != BranchKey(ref);
  }

  lemma DueHereOrAhead(heads: map<Key, Head>, ref: Ref, rest: seq<Ref>, c: Commit)
    requires Due(heads, [ref] + rest, c)
    ensures Due(heads, rest, c) || AtHead(heads, ref, c)
  {
    var refs := [ref] + rest;
    var i :| 0 <= i < |refs| && AtHead(heads, refs[i], c);
    if i > 0 { assert rest[i - 1] == refs[i]; }
  }

  lemma DueAhead(heads: map<Key, Head>, ref: Ref, rest: seq<Ref>, c: Commit)
    requires Due(heads, rest, c)
    ensures Due(heads, [ref] + rest, c)
  {
    var i :| 0 <= i < |rest| && AtHead(heads, rest[i], c);
    assert ([ref] + rest)[i + 1] == rest[i];
  }

  lemma DueWithin(heads: map<Key, Head>, refs: seq<Ref>, all: seq<Ref>, c: Commit)
    requires Due(heads, refs, c) && forall ref | ref in refs :: ref in all
    ensures Due(heads, all, c)
  {
    var i :| 0 <= i < |refs| && AtHead(heads, refs[i], c);
    assert refs[i] in refs;
    var j :| 0 <= j < |all| && all[j] == refs[i];
  }

  lemma SameWaiting(s: State, s': State)
    requires s'.ledger == s.ledger
    ensures forall c :: Waiting(s', c) <==> Waiting(s, c)
    ensures forall p :: Owed(s', p) <==> Owed(s, p)
  {
    assert forall p :: Owed(s', p) <==> Owed(s, p);
  }

  lemma LessOwed(s: State, s': State)
    requires forall p :: Owed(s', p) ==> Owed(s, p)
    ensures forall c :: Waiting(s', c) ==> Waiting(s, c)
  {
    forall c | Waiting(s', c) ensures Waiting(s, c) {
      var context :| Owed(s', Place(c, context));
      assert Owed(s, Place(c, context));
    }
  }

  /** The refs still to be polled are watched ones. */
  lemma AheadIsWatched(w: World, s: State, swept: bool)
    requires Frame(w, s, swept)
    ensures forall ref | ref in Ahead(w, s, swept) :: ref in w.refs
  {
    hide Watched, Markers;
  }

  lemma OneRefDue(w: World, heads: map<Key, Head>, ref: Ref, c: Commit)
    requires AtHead(heads, ref, c) && ref in w.refs
    ensures Due(heads, w.refs, c)
  {
    var i :| 0 <= i < |w.refs| && w.refs[i] == ref;
  }

  /** A step that stays with its run, or its place in the sweep, still leads where it led. */
  lemma SameFrameLeads(w: World, s: State, s': State, swept: bool, c: Commit)
    requires SameFrame(s, s') && s'.heads == s.heads && Frame(w, s, swept) && Leads(w, s, swept, c)
    requires s.pc.Polling? || s.pc.Sampled? || s.pc.Cloned? ==> s'.pc == s.pc
    ensures Leads(w, s', swept, c)
  {
    AheadIsWatched(w, s, swept);
    if Due(s.heads, Ahead(w, s, swept), c) && s'.shutdown { DueWithin(s.heads, Ahead(w, s, swept), w.refs, c); }
    hide Due, MarkedInFlight, Watched, Frame;
  }

  lemma MoveLeads(w: World, s: State, k: Key, sha: Sha, swept: bool, p: Place)
    requires Uninterrupted(s, Move(k, sha)) && Owed(s, p) && Leads(w, s, swept, p.commit)
    ensures Leads(w, s.(heads := s.heads[k := Head(sha, Moves(s.heads, k) + 1)]), swept, p.commit)
  {
    if !MarkedInFlight(s.inFlight, p.commit) && Due(s.heads, Ahead(w, s, swept), p.commit) {
      StillDue(s, k, sha, Ahead(w, s, swept), p);
    }
    hide Uninterrupted, Due, Moves;
  }

  lemma MoveKeepsTips(w: World, s: State, k: Key, sha: Sha, swept: bool)
    requires Frame(w, s, swept) && TipSafe(s) && Uninterrupted(s, Move(k, sha))
    ensures TipSafe(s.(heads := s.heads[k := Head(sha, Moves(s.heads, k) + 1)]))
  {
    hide Uninterrupted, AtHead, Moves, Watched;
    if s.pc.Sampled? || s.pc.Cloned? {
      var c := Commit(s.pc.loop.ref.repo, if s.pc.Sampled? then s.pc.tip else s.pc.sha);
      if Waiting(s, c) && AtHead(s.heads, s.pc.loop.ref, c) {
        var context :| Owed(s, Place(c, context));
        StillAtHead(s, k, sha, s.pc.loop.ref, Place(c, context));
      }
    }
    SameWaiting(s, s.(heads := s.heads[k := Head(sha, Moves(s.heads, k) + 1)]));
    hide Waiting, Frame;
  }

  lemma MoveRecovers(w: World, s: State, k: Key, sha: Sha, swept: bool)
    requires RecoveryInv(w, s, swept) && Uninterrupted(s, Move(k, sha))
    ensures RecoveryInv(w, s.(heads := s.heads[k := Head(sha, Moves(s.heads, k) + 1)]), swept)
  {
    var s' := s.(heads := s.heads[k := Head(sha, Moves(s.heads, k) + 1)]);
    assert Frame(w, s', swept) by { MovedFrame(w, s, s', swept); }
    MoveKeepsTips(w, s, k, sha, swept);
    SameWaiting(s, s');
    SamePcNotDone(s, s');
    hide Uninterrupted, Frame, TipSafe, Known, Leads, Waiting, Moves, NotDone;
    forall p | Owed(s', p) ensures Looked(w, s', swept, p) {
      assert Looked(w, s, swept, p);
      MoveLeads(w, s, k, sha, swept, p);
    }
  }

  lemma MovedFrame(w: World, s: State, s': State, swept: bool)
    requires Frame(w, s, swept) && s' == s.(heads := s'.heads)
    ensures Frame(w, s', swept)
  {
    hide Watched;
  }

  lemma SamePcNotDone(s: State, s': State)
    requires s'.inFlight == s.inFlight && s'.pc == s.pc
    ensures forall p :: NotDone(s, p) ==> NotDone(s', p)
  {
  }

  /** Whatever has to do with a pc that stays is not affected by shutdown or pruning. */
  lemma QuietRecovers(w: World, s: State, a: Action, swept: bool)
    requires RecoveryInv(w, s, swept) && Enabled(w, s, a) && (a.Shut? || a.Expire?)
    ensures RecoveryInv(w, Step(w, s, a), swept)
  {
    hide Step, Enabled;
    var s' := Step(w, s, a);
    UnfoldWithin(w, s, a);
    FrameWithin(w, s, a);
    SameFrameKeeps(w, s, s', swept);
    SameWaiting(s, s');
    SamePcMatters(s, s');
    hide Known, Leads, NotDone, TipSafe, Frame, Waiting, SameFrame, Cancelled;
    forall p | Owed(s', p) ensures Looked(w, s', swept, p) {
      assert Looked(w, s, swept, p);
      QuietLeads(w, s, a, swept, p.commit);
    }
  }

  lemma SamePcMatters(s: State, s': State)
    requires s'.inFlight == s.inFlight && s'.heads == s.heads && s'.ledger == s.ledger
    requires s'.pc == s.pc || (s.pc.Running? && s'.pc.Running? && SameOrigin(s'.pc.run, s.pc.run))
    ensures TipSafe(s) ==> TipSafe(s')
    ensures forall p :: NotDone(s, p) ==> NotDone(s', p)
  {
    SameWaiting(s, s');
    hide Waiting, AtHead, Owed;
  }

  lemma QuietLeads(w: World, s: State, a: Action, swept: bool, c: Commit)
    requires Frame(w, s, swept) && Enabled(w, s, a) && (a.Shut? || a.Expire?) && Leads(w, s, swept, c)
    ensures Leads(w, Step(w, s, a), swept, c)
  {
    hide Step, Enabled;
    UnfoldWithin(w, s, a);
    FrameWithin(w, s, a);
    hide Frame, SameOrigin, Leads;
    SameFrameLeads(w, s, Step(w, s, a), swept, c);
  }

  // ----- reconciliation -----

  lemma OtherMarker(inFlight: map<Key, Sha>, k: Key, c: Commit)
    requires MarkedInFlight(inFlight, c) && k in inFlight && c != Commit(KeyRepo(k), inFlight[k])
    ensures MarkedInFlight(inFlight - {k}, c)
  {
    var other :| other in inFlight && inFlight[other] == c.sha && KeyRepo(other) == c.repo;
    assert other in inFlight - {k};
  }

  /** Reconcile leaves a commit to the next poll, or to the other markers, or resolves it. */
  lemma ReconcileLeads(w: World, s: State, a: Action, p: Place)
    requires s.pc.Boot? && a.Reconcile? && a.key in s.inFlight && Watched(w, a.key) && Leads(w, s, false, p.commit)
    requires a.key.BranchKey? && a.lsOk ==> a.key in s.heads
    ensures Leads(w, ReconcileStep(w, s, a.key, a.lsOk, a.listed), false, p.commit)
  {
    var k, c := a.key, p.commit;
    if MarkedInFlight(s.inFlight, c) {
      if c != Commit(KeyRepo(k), s.inFlight[k]) {
        OtherMarker(s.inFlight, k, c);
      } else if k.BranchKey? && a.lsOk && s.heads[k].sha == s.inFlight[k] {
        TipIsDue(w, s.heads, k, c);
      }
    }
    hide Due, MarkedInFlight, Watched;
  }

  lemma ReconcileLeaves(w: World, s: State, a: Action)
    requires s.pc.Boot? && a.Reconcile? && a.key in s.inFlight && (a.key.BranchKey? && a.lsOk ==> a.key in s.heads)
    ensures var s' := ReconcileStep(w, s, a.key, a.lsOk, a.listed);
            s'.ledger == s.ledger && s'.seen == s.seen && (s'.pc.Boot? || s'.pc.Resolving?)
  {
    hide Watched;
  }

  lemma ReconcileRecovers(w: World, s: State, a: Action)
    requires RecoveryInv(w, s, false) && Enabled(w, s, a) && Uninterrupted(s, a) && a.Reconcile?
    ensures RecoveryInv(w, Step(w, s, a), false)
  {
    hide Step, Enabled;
    UnfoldBoot(w, s, a);
    var s' := ReconcileStep(w, s, a.key, a.lsOk, a.listed);
    assert Watched(w, a.key);
    FrameReconciles(w, s, a);
    ReconcileLeaves(w, s, a);
    SameWaiting(s, s');
    BootIsTipSafe(s');
    hide Frame, Leads, Watched, Waiting, Known, NotDone, TipSafe, ReconcileStep;
    forall p | Owed(s', p) ensures Looked(w, s', false, p) {
      assert Looked(w, s, false, p) && Open(s.ledger, Place(p.commit, p.context));
      ReconcileLeads(w, s, a, p);
      ReconcileNotDone(w, s, a, p);
    }
  }

  lemma BootIsTipSafe(s: State)
    requires s.pc.Boot? || s.pc.Resolving?
    ensures TipSafe(s)
  {
  }

  lemma ReconcileNotDone(w: World, s: State, a: Action, p: Place)
    requires s.pc.Boot? && a.Reconcile? && a.key in s.inFlight && Uninterrupted(s, a) && Open(s.ledger, p)
    requires a.key.BranchKey? && a.lsOk ==> a.key in s.heads
    ensures NotDone(ReconcileStep(w, s, a.key, a.lsOk, a.listed), p)
  {
    assert p == Place(p.commit, p.context);
    hide Watched, Waiting;
  }

  lemma ResolveLeads(w: World, s: State, p: Place)
    requires s.pc.Resolving? && s.pc.key in s.inFlight && NotDone(s, p) && Leads(w, s, false, p.commit)
    ensures Leads(w, ResolveStep(s), false, p.commit)
  {
    if s.pc.contexts == [] && MarkedInFlight(s.inFlight, p.commit) { OtherMarker(s.inFlight, s.pc.key, p.commit); }
    hide Due, MarkedInFlight;
  }

  lemma ResolveRecovers(w: World, s: State)
    requires RecoveryInv(w, s, false) && Enabled(w, s, Resolve)
    ensures RecoveryInv(w, Step(w, s, Resolve), false)
  {
    hide Step, Enabled;
    UnfoldBoot(w, s, Resolve);
    FrameBoots(w, s, Resolve);
    var s' := ResolveStep(s);
    hide Frame, Leads, Known;
    forall p | Owed(s', p) ensures Looked(w, s', false, p) {
      assert Owed(s, p) && Looked(w, s, false, p);
      ResolveLeads(w, s, p);
    }
  }

  lemma BootDoneRecovers(w: World, s: State)
    requires RecoveryInv(w, s, false) && Enabled(w, s, BootDone)
    ensures RecoveryInv(w, Step(w, s, BootDone), false)
  {
    hide Step, Enabled;
    var s' := Step(w, s, BootDone);
    UnfoldBoot(w, s, BootDone);
    FrameBoots(w, s, BootDone);
    SameWaiting(s, s');
    hide Frame, Due, MarkedInFlight, Known, Waiting;
    forall p | Owed(s', p) ensures Looked(w, s', false, p) { assert Looked(w, s, false, p); }
  }

  // ----- the sweep -----

  lemma NothingLeft(w: World, s: State, swept: bool, p: Place)
    requires Frame(w, s, swept) && Leads(w, s, swept, p.commit) && s.pc.Idle? && s.rest == [] && !s.shutdown
    ensures !swept
  {
  }

  lemma SweepLeads(w: World, s: State, a: Action, swept: bool, p: Place)
    requires Frame(w, s, swept) && Enabled(w, s, a) && Leads(w, s, swept, p.commit)
    requires a.StartSweep? || a.NextRef? || a.PullsDone? || a.LeaveBranch?
    ensures Leads(w, Step(w, s, a), swept || a.StartSweep?, p.commit)
  {
    hide Step, Enabled;
    UnfoldSweep(w, s, a);
    if a.StartSweep? { NothingLeft(w, s, swept, p); }
    if a.NextRef? { assert s.rest == [s.rest[0]] + s.rest[1..]; }
    hide Due, MarkedInFlight, RefsWatched, Markers;
  }

  lemma SweepRecovers(w: World, s: State, a: Action, swept: bool)
    requires RecoveryInv(w, s, swept) && Enabled(w, s, a)
    requires a.StartSweep? || a.NextRef? || a.PullsDone? || a.LeaveBranch?
    ensures RecoveryInv(w, Step(w, s, a), swept || a.StartSweep?)
  {
    hide Step, Enabled;
    var s' := Step(w, s, a);
    UnfoldSweep(w, s, a);
    FrameSweeps(w, s, a, swept);
    SameWaiting(s, s');
    hide Frame, Leads, Known, Waiting;
    forall p | Owed(s', p) ensures Looked(w, s', swept || a.StartSweep?, p) {
      assert Looked(w, s, swept, p);
      SweepLeads(w, s, a, swept, p);
    }
  }

  lemma OwedWaits(s: State, p: Place)
    requires Owed(s, p)
    ensures Waiting(s, p.commit)
  {
    assert Owed(s, Place(p.commit, p.context));
  }

  /** Polling a branch samples a waiting tip, and only leaves the branch if none waits there. */
  lemma LsRemoteLeads(w: World, s: State, ok: bool, p: Place)
    requires s.pc.Polling? && (ok ==> BranchKey(s.pc.loop.ref) in s.heads) && Uninterrupted(s, LsRemote(ok))
    requires Owed(s, p) && p.commit !in s.seen && Leads(w, s, true, p.commit)
    ensures Leads(w, LsRemoteStep(s, ok), true, p.commit) && NotDone(LsRemoteStep(s, ok), p)
  {
    OwedWaits(s, p);
    if !s.shutdown && Due(s.heads, Ahead(w, s, true), p.commit) {
      DueHereOrAhead(s.heads, s.pc.loop.ref, s.rest, p.commit);
    }
    hide Due, MarkedInFlight, Waiting;
  }

  lemma CloneLeads(w: World, s: State, ok: bool, p: Place)
    requires s.pc.Sampled? && (ok ==> BranchKey(s.pc.loop.ref) in s.heads) && Uninterrupted(s, Clone(ok))
    requires Owed(s, p) && TipSafe(s) && s.pc.loop.ref in w.refs && Leads(w, s, true, p.commit)
    ensures Leads(w, CloneStep(s, ok), true, p.commit) && NotDone(CloneStep(s, ok), p)
  {
    OwedWaits(s, p);
    if OnItsWay(s.pc, p.commit) && !ok && s.shutdown { OneRefDue(w, s.heads, s.pc.loop.ref, p.commit); }
    hide Due, MarkedInFlight, Waiting;
  }

  lemma SkipCloneLeads(w: World, s: State, p: Place)
    requires s.pc.Cloned? && Commit(s.pc.loop.ref.repo, s.pc.sha) in s.seen
    requires Owed(s, p) && p.commit !in s.seen && TipSafe(s) && Leads(w, s, true, p.commit)
    ensures var tip, after := Commit(s.pc.loop.ref.repo, s.pc.tip), Returned(s.pc.loop, s.pc.tip);
            var s' := s.(seen := s.seen + {tip}, pc := after);
            p.commit != tip && Leads(w, s', true, p.commit) && NotDone(s', p)
  {
    OwedWaits(s, p);
    hide Due, MarkedInFlight, Waiting;
  }

  lemma LsRemoteKeepsTips(s: State, ok: bool)
    requires s.pc.Polling? && (ok ==> BranchKey(s.pc.loop.ref) in s.heads)
    ensures TipSafe(LsRemoteStep(s, ok))
  {
    hide Waiting;
  }

  lemma CloneKeepsTips(s: State, ok: bool)
    requires TipSafe(s) && s.pc.Sampled? && (ok ==> BranchKey(s.pc.loop.ref) in s.heads)
    ensures TipSafe(CloneStep(s, ok))
  {
    SameWaiting(s, CloneStep(s, ok));
    hide Waiting;
  }

  lemma PollKeepsTips(w: World, s: State, a: Action)
    requires TipSafe(s) && Enabled(w, s, a) && (a.LsRemote? || a.Clone? || a.SkipClone?)
    ensures TipSafe(Step(w, s, a))
  {
    hide Step, Enabled;
    UnfoldPoll(w, s, a);
    if a.LsRemote? { LsRemoteKeepsTips(s, a.ok); }
    if a.Clone? { CloneKeepsTips(s, a.ok); }
    hide TipSafe, LsRemoteStep, CloneStep;
    if a.SkipClone? { ReturnedIsTipSafe(Step(w, s, a)); }
  }

  lemma ReturnedIsTipSafe(s: State)
    requires s.pc.Returned?
    ensures TipSafe(s)
  {
  }

  lemma SampledIsWatched(w: World, s: State, swept: bool)
    requires Frame(w, s, swept)
    ensures s.pc.Sampled? ==> s.pc.loop.ref in w.refs
  {
    hide Markers, Watched;
  }

  lemma PollLooks(w: World, s: State, a: Action, p: Place)
    requires RecoveryInv(w, s, true) && Enabled(w, s, a) && Uninterrupted(s, a) && Owed(s, p)
    requires a.LsRemote? || a.Clone? || a.SkipClone?
    ensures Looked(w, Step(w, s, a), true, p)
  {
    hide Step, Enabled, Frame, TipSafe, Leads, Known, Uninterrupted, LsRemoteStep, CloneStep, NotDone;
    UnfoldPoll(w, s, a);
    assert Looked(w, s, true, p);
    SampledIsWatched(w, s, true);
    match a
    case LsRemote(ok) => LsRemoteLeads(w, s, ok, p);
    case Clone(ok) => CloneLeads(w, s, ok, p);
    case SkipClone => SkipCloneLeads(w, s, p);
  }

  lemma PollRecovers(w: World, s: State, a: Action)
    requires RecoveryInv(w, s, true) && Enabled(w, s, a) && Uninterrupted(s, a)
    requires a.LsRemote? || a.Clone? || a.SkipClone?
    ensures RecoveryInv(w, Step(w, s, a), true)
  {
    hide Step, Enabled;
    var s' := Step(w, s, a);
    UnfoldPoll(w, s, a);
    FramePolls(w, s, a);
    SameRefKeeps(w, s, s');
    PollKeepsTips(w, s, a);
    SameWaiting(s, s');
    hide Frame, TipSafe, Looked, Waiting, Uninterrupted;
    forall p | Owed(s', p) ensures Looked(w, s', true, p) { PollLooks(w, s, a, p); }
  }

  // ----- runs -----

  lemma RunIsMarked(s: State, run: Run)
    requires RunKey(run) in s.inFlight && s.inFlight[RunKey(run)] == run.sha
    ensures MarkedInFlight(s.inFlight, RunCommit(run))
  {
    assert KeyRepo(RunKey(run)) == RunCommit(run).repo;
  }

  lemma BeginLeads(w: World, s: State, run: Run, c: Commit)
    requires s.inFlight == map[] && Leads(w, s, true, c)
    requires s.pc.Pulls? || (s.pc.Cloned? && RunCommit(run) == Commit(s.pc.loop.ref.repo, s.pc.sha))
    ensures Leads(w, Begin(s, run), true, c)
  {
    RunIsMarked(Begin(s, run), run);
    assert !MarkedInFlight(s.inFlight, c);
    hide Due, MarkedInFlight, RunCommit;
  }

  lemma BeginKeepsTips(s: State, run: Run)
    requires TipSafe(s)
    requires (s.pc.Pulls? && run.origin.FromPull?)
             || (s.pc.Cloned? && run.origin.FromBranch? && run.origin.loop == s.pc.loop
                 && run.origin.tip == s.pc.tip && run.sha == s.pc.sha)
    ensures TipSafe(Begin(s, run))
  {
    SameWaiting(s, Begin(s, run));
    hide Waiting;
  }

  lemma BeginRecovers(w: World, s: State, a: Action)
    requires RecoveryInv(w, s, true) && Enabled(w, s, a) && (a.StartBranchRun? || a.StartPull?)
    ensures RecoveryInv(w, Step(w, s, a), true)
  {
    hide Step, Enabled, NewRun;
    UnfoldBegin(w, s, a);
    var o := if a.StartPull? then FromPull(s.pc.ref, a.number) else FromBranch(s.pc.loop, s.pc.tip, s.pc.at);
    var sha := if a.StartPull? then a.sha else s.pc.sha;
    var run := NewRun(w, s, o, sha, a.truth);
    Loops.BegunRun(w, s, o, sha, a.truth);
    var s' := Begin(s, run);
    FrameBegins(w, s, run);
    BeginKeepsTips(s, run);
    SameWaiting(s, s');
    assert s.inFlight == map[];
    hide Frame, TipSafe, Leads, Known, Waiting;
    forall p | Owed(s', p) ensures Looked(w, s', true, p) {
      assert Looked(w, s, true, p);
      BeginLeads(w, s, run, p.commit);
    }
  }

  lemma WatchRecovers(w: World, s: State, a: Action)
    requires RecoveryInv(w, s, true) && Enabled(w, s, a) && (a.Observe? || a.Fire?)
    ensures RecoveryInv(w, Step(w, s, a), true)
  {
    hide Step, Enabled;
    var s' := Step(w, s, a);
    UnfoldWithin(w, s, a);
    FrameWithin(w, s, a);
    SameFrameKeeps(w, s, s', true);
    SameWaiting(s, s');
    SamePcMatters(s, s');
    hide Known, Leads, NotDone, TipSafe, Frame, Waiting;
    forall p | Owed(s', p) ensures Looked(w, s', true, p) {
      assert Looked(w, s, true, p);
      SameFrameLeads(w, s, s', true, p.commit);
    }
  }

  lemma WithGateElsewhere(s: State, gate: G.State, p: Place)
    requires s.pc.Running?
    requires gate.log == s.pc.run.gate.log
             || exists post :: gate.log == s.pc.run.gate.log + [post]
                               && (p.commit != RunCommit(s.pc.run) || p.context != post.context)
    ensures Open(WithGate(s, gate).ledger, p) <==> Open(s.ledger, p)
  {
    hide RunCommit;
  }

  /** A gate step leaves alone every place but one on a known context of the run's commit. */
  lemma GateElsewhere(w: World, s: State, g: G.Action, before: set<Place>, p: Place)
    requires LedgerInv(w, s, before) && Enabled(w, s, Gate(g))
    requires p.commit != RunCommit(s.pc.run) || !Known(w, p.commit, p.context)
    ensures Open(GateStep(s, g).ledger, p) <==> Open(s.ledger, p)
  {
    var run := s.pc.run;
    GateFacts(w, s, before);
    UnfoldWithin(w, s, Gate(g));
    hide Enabled, Step;
    GateAppends(w, RunCommit(run), run.reading, run.gate, g);
    hide G.Step, G.Enabled, Reads, RunCommit, Known, LedgerInv, WithGate, Open;
    WithGateElsewhere(s, G.Step(run.reading, run.gate, g), p);
  }

  /** A place that is open after a gate step was open before, or belongs to the run. */
  lemma GateOpens(w: World, s: State, g: G.Action, before: set<Place>, p: Place)
    requires LedgerInv(w, s, before) && Enabled(w, s, Gate(g)) && Open(GateStep(s, g).ledger, p)
    ensures !Open(s.ledger, p) ==> p.commit == RunCommit(s.pc.run) && Known(w, p.commit, p.context)
    ensures RunCommit(s.pc.run) !in s.seen
  {
    hide Enabled, GateStep, Open, RunCommit, Known;
    UnfoldWithin(w, s, Gate(g));
    GateFacts(w, s, before);
    hide LedgerInv;
    if p.commit != RunCommit(s.pc.run) || !Known(w, p.commit, p.context) { GateElsewhere(w, s, g, before, p); }
  }

  /** Whatever newly waits after a gate step is the run's own commit. */
  lemma GateWaits(w: World, s: State, g: G.Action, before: set<Place>, c: Commit)
    requires LedgerInv(w, s, before) && Enabled(w, s, Gate(g)) && Waiting(GateStep(s, g), c)
    ensures Waiting(s, c) || c == RunCommit(s.pc.run)
  {
    var context :| Owed(GateStep(s, g), Place(c, context));
    GateOpens(w, s, g, before, Place(c, context));
    assert Open(s.ledger, Place(c, context)) ==> Owed(s, Place(c, context));
  }

  lemma GateKeepsTips(w: World, s: State, g: G.Action, before: set<Place>)
    requires LedgerInv(w, s, before) && TipSafe(s) && Enabled(w, s, Gate(g))
    ensures TipSafe(GateStep(s, g))
  {
    var s', run := GateStep(s, g), s.pc.run;
    GateIsSameRun(s, g);
    hide Enabled, LedgerInv, G.Step, G.Enabled, Waiting, GateStep;
    if run.origin.FromBranch? && run.origin.tip != run.sha {
      var c := Commit(run.origin.loop.ref.repo, run.origin.tip);
      if Waiting(s', c) { GateWaits(w, s, g, before, c); }
    }
  }

  lemma GateIsSameRun(s: State, g: G.Action)
    requires s.pc.Running? && G.Enabled(s.pc.run.reading, s.pc.run.gate, g) && Sized(s.pc.run)
    ensures GateStep(s, g).pc.Running? && SameOrigin(GateStep(s, g).pc.run, s.pc.run)
    ensures GateStep(s, g).seen == s.seen && GateStep(s, g).heads == s.heads
  {
    hide G.Step, G.Enabled, Posted;
  }

  lemma GateLooks(w: World, s: State, g: G.Action, before: set<Place>, p: Place)
    requires LedgerInv(w, s, before) && RecoveryInv(w, s, true) && Enabled(w, s, Gate(g)) && Owed(GateStep(s, g), p)
    ensures Looked(w, GateStep(s, g), true, p)
  {
    hide Enabled, Step, LedgerInv, G.Step, G.Enabled, Known, GateStep, MarkedInFlight, Due, Ahead, Watched;
    UnfoldWithin(w, s, Gate(g));
    var s', run := GateStep(s, g), s.pc.run;
    FrameWithin(w, s, Gate(g));
    GateIsSameRun(s, g);
    GateOpens(w, s, g, before, p);
    if Open(s.ledger, p) {
      assert Owed(s, p) && Looked(w, s, true, p);
    } else {
      RunIsMarked(s, run);
    }
    SameFrameLeads(w, s, s', true, p.commit);
  }

  lemma GateRecovers(w: World, s: State, g: G.Action, before: set<Place>)
    requires LedgerInv(w, s, before) && RecoveryInv(w, s, true) && Enabled(w, s, Gate(g))
    ensures RecoveryInv(w, Step(w, s, Gate(g)), true)
  {
    hide Step, Enabled;
    UnfoldWithin(w, s, Gate(g));
    FrameWithin(w, s, Gate(g));
    SameFrameKeeps(w, s, GateStep(s, g), true);
    GateKeepsTips(w, s, g, before);
    hide LedgerInv, Frame, TipSafe, Looked, GateStep, G.Enabled;
    forall p | Owed(GateStep(s, g), p) ensures Looked(w, GateStep(s, g), true, p) { GateLooks(w, s, g, before, p); }
  }

  /** A step after the gate: it posts no pending gate context. */
  lemma JudgeCloses(w: World, s: State, p: Place)
    requires s.pc.Running? && s.pc.run.gate.pc.Done? && Owed(JudgeStep(w, s), p)
    ensures Owed(s, p)
  {
    hide PromoteTarget, G.WasSuperseded;
  }

  predicate Judged(s: State, s': State) {
    match s'.pc
    case Superseding(run) => s.pc.Running? && SameOrigin(run, s.pc.run)
    case Promoting(run, _, _) => s.pc.Running? && SameOrigin(run, s.pc.run)
    case Marking(run) => s.pc.Running? && SameOrigin(run, s.pc.run)
    case Stopped => true
    case _ => false
  }

  lemma JudgedPc(w: World, s: State)
    requires s.pc.Running? && s.pc.run.gate.pc.Done?
    ensures Judged(s, JudgeStep(w, s)) && SameFrame(s, JudgeStep(w, s))
    ensures JudgeStep(w, s).heads == s.heads && JudgeStep(w, s).seen == s.seen
  {
    FrameJudges(w, s);
    hide PromoteTarget, G.WasSuperseded, Posted, SameFrame, RunCommit;
  }

  lemma JudgedElsewhere(w: World, s: State, before: set<Place>, p: Place)
    requires LedgerInv(w, s, before) && Enabled(w, s, Judge)
    requires Owed(JudgeStep(w, s), p) && Known(w, p.commit, p.context)
    ensures JudgeStep(w, s).pc.Stopped? || p.commit != RunCommit(s.pc.run)
  {
    hide Enabled, LedgerInv, JudgeStep, Known, RunCommit;
    UnfoldEnd(w, s, Judge);
    if !JudgeStep(w, s).pc.Stopped? && p.commit == RunCommit(s.pc.run) { JudgedOwesNothing(w, s, before, p); }
  }

  lemma JudgedNotDone(s: State, s': State, p: Place)
    requires Judged(s, s') && s.pc.Running? && (s'.pc.Stopped? || p.commit != RunCommit(s.pc.run))
    ensures NotDone(s', p)
  {
  }

  lemma JudgedTipSafe(s: State, s': State)
    requires Judged(s, s') && s.pc.Running? && TipSafe(s) && forall c :: Waiting(s', c) ==> Waiting(s, c)
    ensures TipSafe(s')
  {
    hide Waiting;
  }

  lemma JudgeRecovers(w: World, s: State, before: set<Place>)
    requires LedgerInv(w, s, before) && RecoveryInv(w, s, true) && Enabled(w, s, Judge)
    ensures RecoveryInv(w, Step(w, s, Judge), true)
  {
    hide Step, Enabled;
    UnfoldEnd(w, s, Judge);
    var s' := JudgeStep(w, s);
    JudgedPc(w, s);
    SameFrameKeeps(w, s, s', true);
    forall p | Owed(s', p) ensures Owed(s, p) { JudgeCloses(w, s, p); }
    LessOwed(s, s');
    JudgedTipSafe(s, s');
    hide Known, LedgerInv, Frame, TipSafe, Waiting, JudgeStep, Leads, SameFrame, Judged, NotDone, RunCommit;
    forall p | Owed(s', p) ensures Looked(w, s', true, p) {
      assert Looked(w, s, true, p);
      JudgedElsewhere(w, s, before, p);
      JudgedNotDone(s, s', p);
      SameFrameLeads(w, s, s', true, p.commit);
    }
  }

  /** The steps of a promotion stay with the run. */
  lemma PromotionFacts(w: World, s: State, a: Action)
    requires Enabled(w, s, a) && (a.Attempt? || a.AfterPromotion?)
    ensures var s' := Step(w, s, a);
            && SameFrame(s, s') && s'.heads == s.heads && s'.seen == s.seen
            && (forall p :: Owed(s', p) ==> Owed(s, p))
            && (forall p :: NotDone(s, p) ==> NotDone(s', p))
  {
    hide Step, Enabled;
    UnfoldEnd(w, s, a);
  }

  lemma PromotionKeepsTips(w: World, s: State, a: Action)
    requires Enabled(w, s, a) && (a.Attempt? || a.AfterPromotion?) && TipSafe(s)
    requires forall c :: Waiting(Step(w, s, a), c) ==> Waiting(s, c)
    ensures TipSafe(Step(w, s, a))
  {
    hide Step, Enabled, Waiting, Posted;
    UnfoldEnd(w, s, a);
  }

  lemma PromotionRecovers(w: World, s: State, a: Action)
    requires RecoveryInv(w, s, true) && Enabled(w, s, a) && (a.Attempt? || a.AfterPromotion?)
    ensures RecoveryInv(w, Step(w, s, a), true)
  {
    hide Step, Enabled;
    var s' := Step(w, s, a);
    UnfoldEnd(w, s, a);
    PromotionFacts(w, s, a);
    SameFrameKeeps(w, s, s', true);
    LessOwed(s, s');
    PromotionKeepsTips(w, s, a);
    hide AttemptStep, Frame, Known, Leads, Waiting, Owed, NotDone, TipSafe, SameFrame;
    forall p | Owed(s', p) ensures Looked(w, s', true, p) {
      assert Looked(w, s, true, p);
      SameFrameLeads(w, s, s', true, p.commit);
    }
  }

  lemma MarkLooks(w: World, s: State, p: Place)
    requires RecoveryInv(w, s, true) && s.pc.Marking? && Owed(s, p)
    ensures Looked(w, MarkStep(s), true, p)
  {
    OwedWaits(s, p);
    assert Looked(w, s, true, p);
    FrameMarks(s);
    SameFrameLeads(w, s, MarkStep(s), true, p.commit);
    hide Frame, Known, Leads, Waiting, SameFrame;
  }

  lemma MarkFacts(s: State)
    requires s.pc.Marking?
    ensures MarkStep(s).ledger == s.ledger && TipSafe(MarkStep(s))
  {
    hide RunCommit, Waiting;
  }

  lemma MarkRecovers(w: World, s: State)
    requires RecoveryInv(w, s, true) && s.pc.Marking?
    ensures RecoveryInv(w, MarkStep(s), true)
  {
    var s' := MarkStep(s);
    FrameMarks(s);
    SameFrameKeeps(w, s, s', true);
    MarkFacts(s);
    SameWaiting(s, s');
    hide Frame, Waiting, Looked, MarkStep, SameFrame, TipSafe;
    forall p | Owed(s', p) ensures Looked(w, s', true, p) { MarkLooks(w, s, p); }
  }

  lemma LeaveLeads(w: World, s: State, a: Action, p: Place)
    requires Frame(w, s, true) && Enabled(w, s, a) && (a.ClearSuperseded? || a.Clear?)
    requires NotDone(s, p) && Leads(w, s, true, p.commit)
    ensures Leads(w, Step(w, s, a), true, p.commit)
  {
    hide Step, Enabled, Watched;
    UnfoldLeave(w, s, a);
    OtherThanOnlyMarker(s, s.pc.run, p.commit);
    DueAfterRun(w, s, p.commit);
    hide Due, MarkedInFlight, G.WasSuperseded, RefsWatched, RunCommit;
  }

  lemma OtherThanOnlyMarker(s: State, run: Run, c: Commit)
    ensures OnlyMarker(s, run) && c != RunCommit(run) ==> !MarkedInFlight(s.inFlight, c)
  {
  }

  lemma DueAfterRun(w: World, s: State, c: Commit)
    ensures s.pc.Superseding? || s.pc.Clearing? || s.pc.Skipping? ==>
              (Due(s.heads, s.rest, c) ==> Due(s.heads, [RefOf(s.pc.run.origin)] + s.rest, c))
  {
    if (s.pc.Superseding? || s.pc.Clearing? || s.pc.Skipping?) && Due(s.heads, s.rest, c) {
      DueAhead(s.heads, RefOf(s.pc.run.origin), s.rest, c);
    }
  }

  lemma SkipLeads(w: World, s: State, p: Place)
    requires Leads(w, s, true, p.commit) && s.pc.Skipping? && s.pc.run.origin.FromBranch?
    ensures Leads(w, SkipStep(s), true, p.commit)
  {
    DueAfterRun(w, s, p.commit);
    hide Due, MarkedInFlight, G.WasSuperseded, Posted;
  }

  lemma LeavingOwesLess(w: World, s: State, a: Action, p: Place)
    requires Enabled(w, s, a) && (a.ClearSuperseded? || a.Clear? || a.Skip?)
    ensures Owed(Step(w, s, a), p) ==> Owed(s, p)
    ensures Step(w, s, a).seen == s.seen
  {
    hide Step, Enabled, AfterBranch;
    UnfoldLeave(w, s, a);
  }

  lemma OutsideIsDone(s: State)
    requires s.pc.Polling? || s.pc.Pulls? || s.pc.Returned? || s.pc.Skipping? || s.pc.Stopped?
    ensures TipSafe(s) && forall p :: NotDone(s, p)
  {
  }

  lemma LeavingPc(w: World, s: State, a: Action)
    requires Enabled(w, s, a) && (a.ClearSuperseded? || a.Clear? || a.Skip?)
    ensures var pc := Step(w, s, a).pc; pc.Polling? || pc.Pulls? || pc.Returned? || pc.Skipping? || pc.Stopped?
  {
    hide Step, Enabled;
    UnfoldLeave(w, s, a);
    Store.AfterBranchPolls(s, s.pc.run);
    hide AfterBranch, Posted, G.WasSuperseded, RunCommit;
  }

  lemma LeavingIsDone(w: World, s: State, a: Action)
    requires Enabled(w, s, a) && (a.ClearSuperseded? || a.Clear? || a.Skip?)
    ensures TipSafe(Step(w, s, a)) && forall p :: NotDone(Step(w, s, a), p)
  {
    hide Step, Enabled;
    LeavingPc(w, s, a);
    OutsideIsDone(Step(w, s, a));
    hide TipSafe, NotDone;
  }

  lemma LeaveRecovers(w: World, s: State, a: Action)
    requires RecoveryInv(w, s, true) && Enabled(w, s, a) && (a.ClearSuperseded? || a.Clear? || a.Skip?)
    ensures RecoveryInv(w, Step(w, s, a), true)
  {
    hide Step, Enabled;
    var s' := Step(w, s, a);
    FrameLeaves(w, s, a);
    LeavingIsDone(w, s, a);
    UnfoldLeave(w, s, a);
    assert s'.seen == s.seen;
    hide Frame, Known, Leads, Owed, NotDone, TipSafe, ClearStep, ClearSupersededStep, SkipStep;
    forall p | Owed(s', p) ensures Looked(w, s', true, p) {
      LeavingOwesLess(w, s, a, p);
      assert Looked(w, s, true, p);
      if a.Skip? { SkipLeads(w, s, p); } else { LeaveLeads(w, s, a, p); }
    }
  }

  lemma BootRecovers(w: World, s: State, a: Action)
    requires RecoveryInv(w, s, false) && Enabled(w, s, a) && Uninterrupted(s, a)
    requires a.Reconcile? || a.Resolve? || a.BootDone?
    ensures RecoveryInv(w, Step(w, s, a), false)
  {
    hide RecoveryInv, Step, Enabled, Uninterrupted;
    match a
    case Reconcile(_, _, _) => ReconcileRecovers(w, s, a);
    case Resolve => ResolveRecovers(w, s);
    case BootDone => BootDoneRecovers(w, s);
  }

  lemma RunRecovers(w: World, s: State, a: Action, before: set<Place>)
    requires LedgerInv(w, s, before) && RecoveryInv(w, s, true) && Enabled(w, s, a)
    requires a.Observe? || a.Fire? || a.Gate? || a.Judge? || a.Attempt? || a.AfterPromotion? || a.Mark?
    ensures RecoveryInv(w, Step(w, s, a), true)
  {
    hide LedgerInv, RecoveryInv, Step, Enabled;
    match a
    case Gate(g) => GateRecovers(w, s, g, before);
    case Judge => JudgeRecovers(w, s, before);
    case Attempt(_) => PromotionRecovers(w, s, a);
    case AfterPromotion => PromotionRecovers(w, s, a);
    case Mark =>
      UnfoldEnd(w, s, a);
      MarkRecovers(w, s);
    case _ => WatchRecovers(w, s, a);
  }

  lemma RecoveryStep(w: World, s: State, a: Action, swept: bool, before: set<Place>)
    requires ValidWorld(w) && LedgerInv(w, s, before) && RecoveryInv(w, s, swept)
    requires Enabled(w, s, a) && Uninterrupted(s, a)
    ensures RecoveryInv(w, Step(w, s, a), swept || a.StartSweep?)
  {
    hide LedgerInv, Step, Enabled;
    InPhase(w, s, a, swept);
    hide RecoveryInv, Uninterrupted;
    if a.Move? {
      UnfoldWithin(w, s, a);
      MoveRecovers(w, s, a.key, a.sha, swept);
    } else if a.Shut? || a.Expire? {
      QuietRecovers(w, s, a, swept);
    } else if a.Reconcile? || a.Resolve? || a.BootDone? {
      BootRecovers(w, s, a);
    } else if a.LsRemote? || a.Clone? || a.SkipClone? {
      PollRecovers(w, s, a);
    } else if a.StartBranchRun? || a.StartPull? {
      BeginRecovers(w, s, a);
    } else if a.Observe? || a.Fire? || a.Gate? || a.Judge? || a.Attempt? || a.AfterPromotion? || a.Mark? {
      RunRecovers(w, s, a, before);
    } else if a.ClearSuperseded? || a.Clear? || a.Skip? {
      LeaveRecovers(w, s, a);
    } else {
      SweepRecovers(w, s, a, swept);
    }
  }

  lemma InPhase(w: World, s: State, a: Action, swept: bool)
    requires RecoveryInv(w, s, swept) && Enabled(w, s, a)
    ensures a.Reconcile? || a.Resolve? || a.BootDone? ==> !swept
    ensures !a.Reconcile? && !a.Resolve? && !a.BootDone? && !a.Move? && !a.Shut? && !a.Expire? && !a.StartSweep? ==>
              swept
  {
    hide G.Enabled, OwedInv, TipSafe, Markers, RefsWatched;
  }

  lemma RecoveryStarts(w: World, r: State)
    requires Starts(r) && Recoverable(w, r)
    ensures RecoveryInv(w, r, false)
  {
    hide Known, Due, MarkedInFlight, Watched;
  }

  lemma {:induction false} RecoveryRun(w: World, r: State, schedule: seq<Action>)
    requires ValidWorld(w) && Starts(r) && Recoverable(w, r)
    requires Exec(w, r, schedule).Some? && UninterruptedRun(w, r, schedule)
    ensures RecoveryInv(w, Exec(w, r, schedule).value, StartSweep in schedule)
  {
    hide RecoveryInv, Uninterrupted, Recoverable, LedgerInv, Step, Enabled, Starts;
    if schedule == [] {
      RecoveryStarts(w, r);
    } else {
      var n := |schedule| - 1;
      RecoveryRun(w, r, schedule[..n]);
      LedgerRun(w, r, schedule[..n]);
      RecoveryStep(w, Exec(w, r, schedule[..n]).value, schedule[n], StartSweep in schedule[..n], OpenPlaces(r.ledger));
      assert schedule == schedule[..n] + [schedule[n]];
    }
  }

  // ----- crashes and shutdowns during recovery -----

  /** A waiting commit that no marker leads to is the tip of a watched branch. */
  lemma UnmarkedIsDue(w: World, s: State, swept: bool, p: Place)
    requires RecoveryInv(w, s, swept) && Owed(s, p) && !MarkedInFlight(s.inFlight, p.commit)
    ensures Due(s.heads, w.refs, p.commit)
  {
    OwedWaits(s, p);
    assert Looked(w, s, swept, p);
    AheadIsWatched(w, s, swept);
    hide Known, Watched, Markers, MarkedInFlight, Waiting;
    if Due(s.heads, Ahead(w, s, swept), p.commit) {
      DueWithin(s.heads, Ahead(w, s, swept), w.refs, p.commit);
    } else {
      OneRefDue(w, s.heads, s.pc.loop.ref, p.commit);
    }
  }

  /** Whatever state an uninterrupted recovery is in, ending there, by a crash or after a
      shutdown, leaves what the next recovery needs. */
  lemma CrashDuringRecovery(w: World, s: State, swept: bool, r: State)
    requires RecoveryInv(w, s, swept) && Restarts(s, r)
    ensures Recoverable(w, r)
  {
    hide Watched, Known;
    assert RefsWatched(w, s) && OwedInv(w, s, swept);
    forall p | Owed(r, p)
      ensures p.commit !in r.seen && Known(w, p.commit, p.context)
              && (MarkedInFlight(r.inFlight, p.commit) || Due(r.heads, w.refs, p.commit))
    {
      assert Owed(s, p) && Looked(w, s, swept, p);
      OwedWaits(s, p);
      if !MarkedInFlight(s.inFlight, p.commit) {
        UnmarkedIsDue(w, s, swept, p);
        StaysDue(w, s, r, p);
      }
    }
  }

  lemma StaysDue(w: World, s: State, r: State, p: Place)
    requires Restarts(s, r) && NeedsItsTip(s, p.commit) && Due(s.heads, w.refs, p.commit)
    ensures Due(r.heads, w.refs, p.commit)
  {
    hide Waiting, MarkedInFlight, Starts;
    var i :| 0 <= i < |w.refs| && AtHead(s.heads, w.refs[i], p.commit);
    assert Commit(KeyRepo(BranchKey(w.refs[i])), s.heads[BranchKey(w.refs[i])].sha) == p.commit;
    assert AtHead(r.heads, w.refs[i], p.commit);
  }

  // ----- the theorem -----

  /** One process: where it starts and what it does until it dies. */
  datatype Life = Life(first: State, schedule: seq<Action>)

  ghost predicate Lives(w: World, l: Life) { Starts(l.first) && Exec(w, l.first, l.schedule).Some? }

  ghost function Death(w: World, l: Life): State
    requires Lives(w, l)
  {
    Exec(w, l.first, l.schedule).value
  }

  /** First any process that starts with no gate context pending; then, one after the
      other, processes that are not interrupted until they are killed or shut down. */
  ghost predicate History(w: World, lives: seq<Life>) {
    && (forall i | 0 <= i < |lives| :: Lives(w, lives[i]))
    && (forall i | 0 < i < |lives| :: Restarts(Death(w, lives[i - 1]), lives[i].first))
    && (forall i | 0 < i < |lives| :: UninterruptedRun(w, lives[i].first, lives[i].schedule))
    && (|lives| > 0 ==> forall p :: !Owed(lives[0].first, p))
    && (|lives| > 1 ==> forall k | k in lives[1].first.inFlight :: Watched(w, k))
  }

  lemma {:induction false} HistoryRecoverable(w: World, lives: seq<Life>, i: nat)
    requires ValidWorld(w) && History(w, lives) && 0 < i < |lives|
    ensures Recoverable(w, lives[i].first)
  {
    hide Owed, Starts, RecoveryInv, Recoverable, UninterruptedRun, Watched;
    var before, r := lives[i - 1], lives[i].first;
    var dead := Death(w, before);
    assert Restarts(dead, r);
    if i > 1 {
      HistoryRecoverable(w, lives, i - 1);
      RecoveryRun(w, before.first, before.schedule);
      CrashDuringRecovery(w, dead, StartSweep in before.schedule, r);
    } else {
      FirstCrash(w, before.first, dead, r, before.schedule);
    }
  }

  lemma FirstCrash(w: World, first: State, dead: State, r: State, schedule: seq<Action>)
    requires ValidWorld(w) && Starts(first) && Exec(w, first, schedule) == Some(dead) && Restarts(dead, r)
    requires forall p :: !Owed(first, p)
    requires forall k | k in r.inFlight :: Watched(w, k)
    ensures Recoverable(w, r)
  {
    assert Reachable(w, first, dead);
    forall p | Owed(r, p)
      ensures p.commit !in r.seen && Known(w, p.commit, p.context) && MarkedInFlight(r.inFlight, p.commit)
    {
      assert !Owed(first, p);
      NoLeakedPending(w, first, dead, p);
    }
  }

  /** Crash recovery. Start with no gate context pending, let the engine run and kill it
      or shut it down anywhere; restart it and end it again, any number of times, anywhere.
      If every marked ref was still watched and no restart was interrupted but by its end,
      then once one of them has reconciled and swept every ref, nothing is pending but
      possibly a promotion. */
  lemma CrashRecovery(w: World, lives: seq<Life>, p: Place)
    requires ValidWorld(w) && History(w, lives) && |lives| > 1
    requires var l := lives[|lives| - 1];
             StartSweep in l.schedule && Death(w, l).pc.Idle? && Death(w, l).rest == [] && !Death(w, l).shutdown
    ensures var s := Death(w, lives[|lives| - 1]); Open(s.ledger, p) ==> p.context == Promote
  {
    var n := |lives| - 1;
    var l := lives[n];
    HistoryRecoverable(w, lives, n);
    assert Lives(w, l) && UninterruptedRun(w, l.first, l.schedule);
    RecoveryRun(w, l.first, l.schedule);
    var s := Death(w, l);
    if Owed(s, p) {
      assert Looked(w, s, true, p);
      NothingLeft(w, s, true, p);
    }
  }
}
