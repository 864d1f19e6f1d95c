/** The engine around the gate: reconcile at start, then sweep the watched refs one
    after another (`PollOnce` with CONCURRENCY <= 1), running a branch tip or a
    same-repo PR head through the gate, short-circuiting it when the remote moves,
    and recording the outcome in the store. The environment may move a remote head
    or ask for shutdown between any two steps. */
module Lifecycle {
  import opened Common
  import S = Scheduler
  import G = Gate

  /** What a commit's .poll-ci.yml asks for. */
  datatype Checks = Checks(contexts: seq<Context>, costs: seq<real>, promoteTo: Option<string>)

  predicate ValidChecks(k: Checks) {
    && |k.contexts| == |k.costs| > 0
    && (forall i | 0 <= i < |k.costs| :: k.costs[i] > 0.0)
    && (forall i | 0 <= i < |k.contexts| :: k.contexts[i].Gated?)
    && (forall i, j | 0 <= i < j < |k.contexts| :: k.contexts[i] != k.contexts[j])
  }

  /** Engine configuration, and the configuration file of every commit that has a usable one. */
  datatype World = World(
    refs: seq<Ref>, pollPRs: bool, shortCircuit: bool, markSkipped: bool,
    maxCount: int, budget: real, files: map<Commit, Checks>)

  ghost predicate ValidWorld(w: World) {
    w.budget > 0.0 && forall c | c in w.files :: ValidChecks(w.files[c])
  }

  /** The key of an in-flight run: a branch, or a pull request of a repository. */
  datatype Key = BranchKey(ref: Ref) | PullKey(of: Repo, number: nat)

  function KeyRepo(k: Key): Repo {
    match k
    case BranchKey(ref) => ref.repo
    case PullKey(repo, _) => repo
  }

  /** What ls-remote answers for a key, and how often that answer has changed. A key
      without a head is a branch or pull request the remote does not have. */
  datatype Head = Head(sha: Sha, moves: nat)

  function Moves(heads: map<Key, Head>, k: Key): nat { if k in heads then heads[k].moves else 0 }

  /** One (commit, context) pair of the status ledger. */
  datatype Place = Place(commit: Commit, context: Context)
  type Ledger = map<Place, Status>

  ghost predicate Open(l: Ledger, p: Place) { p in l && l[p] == Pending }

  /** One call of processBranch: its ref, the iteration it is in, and the head's move
      count when the call began. */
  datatype Loop = Loop(ref: Ref, iteration: nat, since: nat)

  /** Where a run comes from: `tip` is the sampled tip, `at` the head's move count at the clone. */
  datatype Origin = FromBranch(loop: Loop, tip: Sha, at: nat) | FromPull(ref: Ref, number: nat)

  datatype Run = Run(
    origin: Origin, sha: Sha, reading: G.Reading, gate: G.State,
    base: Ledger,            // the ledger when the run began
    posts: seq<G.Post>,      // everything the run has posted on its commit
    watch: Option<Sha>)      // the newer tip the watcher has seen

  function RefOf(o: Origin): Ref {
    match o
    case FromBranch(loop, _, _) => loop.ref
    case FromPull(ref, _) => ref
  }

  function RunKey(run: Run): Key {
    match run.origin
    case FromBranch(loop, _, _) => BranchKey(loop.ref)
    case FromPull(ref, n) => PullKey(ref.repo, n)
  }

  function RunCommit(run: Run): Commit { Commit(RefOf(run.origin).repo, run.sha) }

  datatype Pc =
    | Boot(todo: set<Key>)                                      // reconcileInFlight
    | Resolving(key: Key, contexts: seq<Context>, todo: set<Key>)
    | Idle                                                      // between two refs
    | Polling(loop: Loop)                                       // top of processBranch's loop
    | Sampled(loop: Loop, tip: Sha)
    | Cloned(loop: Loop, tip: Sha, sha: Sha, at: nat)
    | Running(run: Run)
    | Superseding(run: Run)                                     // ci resolved, marker not yet cleared
    | Promoting(run: Run, target: string, attempt: nat)
    | Promoted(run: Run)                                        // maybePromote has returned
    | Marking(run: Run)
    | Clearing(run: Run, prev: Option<Sha>)                     // marked seen, marker not yet cleared
    | Skipping(run: Run, shas: seq<Sha>)                        // markSkipped's loop
    | Returned(loop: Loop, tip: Sha)                            // processBranch returned nil
    | Pulls(ref: Ref)                                           // processPRs
    | Stopped                                                   // shut down

  /** A FastForwardRef call that was issued. */
  datatype FastForward = FastForward(target: string, run: Run)

  datatype State = State(
    heads: map<Key, Head>, shutdown: bool,
    seen: set<Commit>, last: map<Ref, Sha>, inFlight: map<Key, Sha>,
    ledger: Ledger, promotions: seq<FastForward>,
    rest: seq<Ref>, pc: Pc)

  datatype Action =
    // environment
    | Move(key: Key, sha: Sha)
    | Shut
    | Expire(gone: set<Commit>)
    // startup
    | Reconcile(key: Key, lsOk: bool, listed: Option<seq<Context>>)
    | Resolve
    | BootDone
    // sweep
    | StartSweep
    | NextRef
    | LsRemote(ok: bool)
    | Clone(ok: bool)
    | SkipClone
    | StartBranchRun(truth: seq<bool>)
    | StartPull(number: nat, sha: Sha, truth: seq<bool>)
    | PullsDone
    // during a run
    | Observe
    | Fire
    | Gate(a: G.Action)
    // after a run
    | Judge
    | ClearSuperseded
    | Attempt(ok: bool)
    | AfterPromotion
    | Mark
    | Clear(skipped: seq<Sha>)
    | Skip
    | LeaveBranch

  function ReadingOf(w: World, c: Commit, truth: seq<bool>): G.Reading {
    if c in w.files
    then Some(G.Plan(w.files[c].contexts, S.Config(w.files[c].costs, w.maxCount, w.budget, truth)))
    else None
  }

  predicate FitsTruth(w: World, c: Commit, truth: seq<bool>) {
    c in w.files ==> |truth| == |w.files[c].costs|
  }

  function NewRun(w: World, s: State, o: Origin, sha: Sha, truth: seq<bool>): Run {
    var reading := ReadingOf(w, Commit(RefOf(o).repo, sha), truth);
    var gate := G.Init(reading);
    // A run begun under an already cancelled context starts out cancelled.
    Run(o, sha, reading,
        if s.shutdown then gate.(units := gate.units.(cause := Some(Shutdown))) else gate,
        s.ledger, [], None)
  }

  predicate Watched(w: World, k: Key) {
    match k
    case BranchKey(ref) => ref in w.refs
    case PullKey(repo, _) => exists i :: 0 <= i < |w.refs| && w.refs[i].repo == repo
  }

  /** The branch a green run is promoted to: configured, and not the watched branch itself. */
  function PromoteTarget(w: World, run: Run): Option<string> {
    if run.origin.FromBranch? && RunCommit(run) in w.files && w.files[RunCommit(run)].promoteTo.Some?
       && w.files[RunCommit(run)].promoteTo.value != run.origin.loop.ref.branch
    then w.files[RunCommit(run)].promoteTo else None
  }

  /** What the engine has marked seen and still relies on: pruning keeps young entries. */
  function Fresh(pc: Pc): set<Commit> {
    match pc
    case Clearing(run, _) => JustMarked(run)
    case Skipping(run, _) => JustMarked(run)
    case Returned(loop, tip) => {Commit(loop.ref.repo, tip)}
    case _ => {}
  }

  function JustMarked(run: Run): set<Commit> {
    {RunCommit(run)} + if run.origin.FromBranch? then {Commit(RefOf(run.origin).repo, run.origin.tip)} else {}
  }

  ghost predicate Enabled(w: World, s: State, a: Action) {
    match a
    case Move(k, sha) => k in s.heads ==> sha != s.heads[k].sha
    case Shut => true
    case Expire(gone) => gone !! Fresh(s.pc) && forall r | r in s.last :: Commit(r.repo, s.last[r]) !in gone
    case Reconcile(k, lsOk, listed) =>
      && s.pc.Boot? && k in s.pc.todo && k in s.inFlight   // a shutdown may come right after the loop's check
      && (k.BranchKey? && lsOk ==> k in s.heads)
      && (listed.Some? ==> forall c | c in listed.value :: Open(s.ledger, Place(Commit(KeyRepo(k), s.inFlight[k]), c)))
    case Resolve => s.pc.Resolving? && s.pc.key in s.inFlight
    case BootDone => s.pc.Boot? && s.pc.todo == {}
    case StartSweep => s.pc.Idle? && s.rest == [] && !s.shutdown
    case NextRef => s.pc.Idle? && s.rest != [] && !s.shutdown
    case LsRemote(ok) => s.pc.Polling? && (ok ==> BranchKey(s.pc.loop.ref) in s.heads)
    case Clone(ok) => s.pc.Sampled? && (ok ==> BranchKey(s.pc.loop.ref) in s.heads)
    case SkipClone => s.pc.Cloned? && Commit(s.pc.loop.ref.repo, s.pc.sha) in s.seen
    case StartBranchRun(truth) =>
      var c := if s.pc.Cloned? then Commit(s.pc.loop.ref.repo, s.pc.sha) else Commit(Repo("", ""), Sha(""));
      s.pc.Cloned? && c !in s.seen && FitsTruth(w, c, truth)
    case StartPull(n, sha, truth) =>
      var c := if s.pc.Pulls? then Commit(s.pc.ref.repo, sha) else Commit(Repo("", ""), Sha(""));
      s.pc.Pulls? && w.pollPRs && !s.shutdown && c !in s.seen && FitsTruth(w, c, truth)
    case PullsDone => s.pc.Pulls?
    case Observe =>
      && s.pc.Running? && w.shortCircuit && s.pc.run.watch.None?
      && RunKey(s.pc.run) in s.heads && s.heads[RunKey(s.pc.run)].sha != s.pc.run.sha
    case Fire => s.pc.Running? && s.pc.run.watch.Some?
    case Gate(g) =>
      && s.pc.Running? && !g.Cancel? && G.Enabled(s.pc.run.reading, s.pc.run.gate, g)
      && Sized(s.pc.run)
    case Judge => s.pc.Running? && s.pc.run.gate.pc.Done?
    case ClearSuperseded => s.pc.Superseding?
    case Attempt(_) => s.pc.Promoting?
    case AfterPromotion => s.pc.Promoted?
    case Mark => s.pc.Marking?
    case Clear(_) => s.pc.Clearing?
    case Skip => s.pc.Skipping? && s.pc.run.origin.FromBranch?
    case LeaveBranch => s.pc.Returned?
  }

  predicate Sized(run: Run) {
    run.reading.Some? ==>
      |run.gate.units.units| == |run.reading.value.units.costs| == |run.reading.value.contexts|
  }

  /** Post one more status on the run's commit. */
  function PostOn(run: Run, post: G.Post): Run { run.(posts := run.posts + [post]) }

  function Posted(s: State, c: Commit, post: G.Post): Ledger {
    s.ledger[Place(c, post.context) := post.status]
  }

  /** Where the engine goes after the last step of a branch run. */
  function AfterBranch(s: State, run: Run): Pc
    requires run.origin.FromBranch?
  {
    var loop := run.origin.loop;
    if G.WasSuperseded(run.gate) && !s.shutdown then Polling(loop.(iteration := loop.iteration + 1))
    else Returned(loop, run.origin.tip)
  }

  function ReconcileStep(w: World, s: State, k: Key, lsOk: bool, listed: Option<seq<Context>>): (s': State)
    requires s.pc.Boot? && k in s.inFlight && (k.BranchKey? && lsOk ==> k in s.heads)
    ensures s'.heads == s.heads && s'.seen == s.seen && s'.promotions == s.promotions
  {
    var todo := s.pc.todo - {k};
    if !Watched(w, k) || (k.BranchKey? && lsOk && s.heads[k].sha == s.inFlight[k])
    then s.(inFlight := s.inFlight - {k}, pc := Boot(todo))
    else if listed.None? then s.(pc := Boot(todo))
    else s.(pc := Resolving(k, listed.value, todo))
  }

  function ResolveStep(s: State): (s': State)
    requires s.pc.Resolving? && s.pc.key in s.inFlight
    ensures s'.heads == s.heads && s'.seen == s.seen && s'.promotions == s.promotions
  {
    var k, cs := s.pc.key, s.pc.contexts;
    if cs == [] then s.(inFlight := s.inFlight - {k}, pc := Boot(s.pc.todo))
    else s.(ledger := s.ledger[Place(Commit(KeyRepo(k), s.inFlight[k]), cs[0]) := Error],
            pc := Resolving(k, cs[1..], s.pc.todo))
  }

  function LsRemoteStep(s: State, ok: bool): (s': State)
    requires s.pc.Polling? && (ok ==> BranchKey(s.pc.loop.ref) in s.heads)
    ensures s'.heads == s.heads && s'.seen == s.seen && s'.promotions == s.promotions
  {
    var loop := s.pc.loop;
    if !ok then s.(pc := Pulls(loop.ref))
    else
      var tip := s.heads[BranchKey(loop.ref)].sha;
      if Commit(loop.ref.repo, tip) in s.seen then s.(pc := Returned(loop, tip)) else s.(pc := Sampled(loop, tip))
  }

  function CloneStep(s: State, ok: bool): (s': State)
    requires s.pc.Sampled? && (ok ==> BranchKey(s.pc.loop.ref) in s.heads)
    ensures s'.heads == s.heads && s'.seen == s.seen && s'.promotions == s.promotions
  {
    var loop := s.pc.loop;
    if !ok then s.(pc := Pulls(loop.ref))
    else
      var head := s.heads[BranchKey(loop.ref)];
      s.(pc := Cloned(loop, s.pc.tip, head.sha, head.moves))
  }

  /** SetInFlight, and the run begins. */
  function Begin(s: State, run: Run): (s': State)
    ensures s'.heads == s.heads && s'.seen == s.seen && s'.promotions == s.promotions
  {
    s.(inFlight := s.inFlight[RunKey(run) := run.sha], pc := Running(run))
  }

  /** The run's gate has moved to `gate`; what it posted reaches the ledger. */
  function WithGate(s: State, gate: G.State): (s': State)
    requires s.pc.Running?
    ensures s'.heads == s.heads && s'.seen == s.seen && s'.promotions == s.promotions
  {
    var run := s.pc.run;
    s.(pc := Running(run.(gate := gate, posts := gate.log)),
       ledger := if |gate.log| > |run.gate.log| then Posted(s, RunCommit(run), gate.log[|gate.log| - 1]) else s.ledger)
  }

  function GateStep(s: State, g: G.Action): (s': State)
    requires s.pc.Running? && G.Enabled(s.pc.run.reading, s.pc.run.gate, g) && Sized(s.pc.run)
    ensures s'.heads == s.heads && s'.seen == s.seen && s'.promotions == s.promotions
  {
    WithGate(s, G.Step(s.pc.run.reading, s.pc.run.gate, g))
  }

  function JudgeStep(w: World, s: State): (s': State)
    requires s.pc.Running? && s.pc.run.gate.pc.Done?
    ensures s'.heads == s.heads && s'.seen == s.seen && s'.promotions == s.promotions
  {
    var run := s.pc.run;
    if G.WasSuperseded(run.gate) && !run.gate.pc.completed then
      var post := G.Post(Rollup, Error);
      s.(pc := Superseding(PostOn(run, post)), ledger := Posted(s, RunCommit(run), post))
    else if s.shutdown then s.(pc := Stopped)
    else if run.gate.pc.passed && PromoteTarget(w, run).Some? then
      var post := G.Post(Promote, Pending);
      s.(pc := Promoting(PostOn(run, post), PromoteTarget(w, run).value, 1),
         ledger := Posted(s, RunCommit(run), post))
    else s.(pc := Marking(run))
  }

  function ClearSupersededStep(s: State): (s': State)
    requires s.pc.Superseding?
    ensures s'.heads == s.heads && s'.seen == s.seen && s'.promotions == s.promotions
  {
    var run := s.pc.run;
    s.(inFlight := s.inFlight - {RunKey(run)},
       pc := if s.shutdown then Stopped
             else match run.origin
                  case FromBranch(loop, _, _) => Polling(loop.(iteration := loop.iteration + 1))
                  case FromPull(ref, _) => Pulls(ref))
  }

  function AttemptStep(s: State, ok: bool): (s': State)
    requires s.pc.Promoting?
    ensures s'.heads == s.heads && s'.seen == s.seen && s'.inFlight == s.inFlight
  {
    var run, target, attempt := s.pc.run, s.pc.target, s.pc.attempt;
    if s.shutdown then s.(pc := Promoted(run))
    else
      var issued := s.(promotions := s.promotions + [FastForward(target, run)]);
      if ok || attempt >= 3 then
        var post := G.Post(Promote, if ok then Success else Error);
        issued.(pc := Promoted(PostOn(run, post)), ledger := Posted(s, RunCommit(run), post))
      else issued.(pc := Promoting(run, target, attempt + 1))
  }

  function MarkStep(s: State): (s': State)
    requires s.pc.Marking?
    ensures s'.heads == s.heads && s'.promotions == s.promotions && s'.inFlight == s.inFlight
  {
    var run := s.pc.run;
    match run.origin
    case FromBranch(loop, tip, _) =>
      s.(seen := s.seen + {Commit(loop.ref.repo, tip), RunCommit(run)},
         last := s.last[loop.ref := run.sha],
         pc := Clearing(run, if loop.ref in s.last then Some(s.last[loop.ref]) else None))
    case FromPull(_, _) => s.(seen := s.seen + {RunCommit(run)}, pc := Clearing(run, None))
  }

  function ClearStep(w: World, s: State, skipped: seq<Sha>): (s': State)
    requires s.pc.Clearing?
    ensures s'.heads == s.heads && s'.seen == s.seen && s'.promotions == s.promotions
  {
    var run, prev := s.pc.run, s.pc.prev;
    s.(inFlight := s.inFlight - {RunKey(run)},
       pc := match run.origin
             case FromBranch(_, _, _) =>
               if w.markSkipped && prev.Some? && prev.value != run.sha then Skipping(run, skipped)
               else AfterBranch(s, run)
             case FromPull(ref, _) => Pulls(ref))
  }

  function SkipStep(s: State): (s': State)
    requires s.pc.Skipping? && s.pc.run.origin.FromBranch?
    ensures s'.heads == s.heads && s'.seen == s.seen && s'.promotions == s.promotions
  {
    var run, shas := s.pc.run, s.pc.shas;
    if shas == [] then s.(pc := AfterBranch(s, run))
    else
      var c := Commit(RefOf(run.origin).repo, shas[0]);
      s.(pc := Skipping(run, shas[1..]),
         ledger := if shas[0] == run.sha || c in s.seen then s.ledger else Posted(s, c, G.Post(Rollup, Error)))
  }

  /** A cancellation of the context the engine's current run is under. */
  function Cancelled(s: State, cause: Cause): (s': State)
    ensures s'.heads == s.heads && s'.seen == s.seen && s'.promotions == s.promotions
  {
    if !s.pc.Running? then s
    else
      var gate := s.pc.run.gate;
      s.(pc := Running(s.pc.run.(gate := gate.(units := gate.units.(cause := FirstCause(gate.units.cause, cause))))))
  }

  ghost function Step(w: World, s: State, a: Action): State
    requires Enabled(w, s, a)
  {
    match a
    case Move(k, sha) => s.(heads := s.heads[k := Head(sha, Moves(s.heads, k) + 1)])
    case Shut => Cancelled(s.(shutdown := true), Shutdown)
    case Expire(gone) => s.(seen := s.seen - gone)
    case Reconcile(k, lsOk, listed) => ReconcileStep(w, s, k, lsOk, listed)
    case Resolve => ResolveStep(s)
    case BootDone => s.(pc := Idle, rest := [])
    case StartSweep => s.(rest := w.refs)
    case NextRef =>
      s.(pc := Polling(Loop(s.rest[0], 1, Moves(s.heads, BranchKey(s.rest[0])))), rest := s.rest[1..])
    case LsRemote(ok) => LsRemoteStep(s, ok)
    case Clone(ok) => CloneStep(s, ok)
    case SkipClone =>
      s.(seen := s.seen + {Commit(s.pc.loop.ref.repo, s.pc.tip)}, pc := Returned(s.pc.loop, s.pc.tip))
    case StartBranchRun(truth) =>
      Begin(s, NewRun(w, s, FromBranch(s.pc.loop, s.pc.tip, s.pc.at), s.pc.sha, truth))
    case StartPull(n, sha, truth) => Begin(s, NewRun(w, s, FromPull(s.pc.ref, n), sha, truth))
    case PullsDone => s.(pc := Idle)
    case Observe => s.(pc := Running(s.pc.run.(watch := Some(s.heads[RunKey(s.pc.run)].sha))))
    case Fire => Cancelled(s, Superseded(s.pc.run.watch.value))
    case Gate(g) => GateStep(s, g)
    case Judge => JudgeStep(w, s)
    case ClearSuperseded => ClearSupersededStep(s)
    case Attempt(ok) => AttemptStep(s, ok)
    case AfterPromotion => s.(pc := if s.shutdown then Stopped else Marking(s.pc.run))
    case Mark => MarkStep(s)
    case Clear(skipped) => ClearStep(w, s, skipped)
    case Skip => SkipStep(s)
    case LeaveBranch => s.(pc := Pulls(s.pc.loop.ref))
  }

  // ----- what each kind of step is -----

  lemma UnfoldWithin(w: World, s: State, a: Action)
    requires Enabled(w, s, a)
    ensures a.Move? ==> Step(w, s, a) == s.(heads := s.heads[a.key := Head(a.sha, Moves(s.heads, a.key) + 1)])
    ensures a.Shut? ==> Step(w, s, a) == Cancelled(s.(shutdown := true), Shutdown)
    ensures a.Expire? ==>
              && a.gone !! Fresh(s.pc) && (forall r | r in s.last :: Commit(r.repo, s.last[r]) !in a.gone)
              && Step(w, s, a) == s.(seen := s.seen - a.gone)
    ensures a.Observe? ==>
              && w.shortCircuit && s.pc.Running? && s.pc.run.watch.None? && RunKey(s.pc.run) in s.heads
              && s.heads[RunKey(s.pc.run)].sha != s.pc.run.sha
              && Step(w, s, a) == s.(pc := Running(s.pc.run.(watch := Some(s.heads[RunKey(s.pc.run)].sha))))
    ensures a.Fire? ==>
              s.pc.Running? && s.pc.run.watch.Some? && Step(w, s, a) == Cancelled(s, Superseded(s.pc.run.watch.value))
    ensures a.Gate? ==>
              && s.pc.Running? && !a.a.Cancel? && G.Enabled(s.pc.run.reading, s.pc.run.gate, a.a) && Sized(s.pc.run)
              && Step(w, s, a) == GateStep(s, a.a)
  {
    hide G.Enabled, G.Step;
  }

  lemma UnfoldBoot(w: World, s: State, a: Action)
    requires Enabled(w, s, a)
    ensures a.Reconcile? ==>
              && s.pc.Boot? && a.key in s.pc.todo && a.key in s.inFlight
              && (a.key.BranchKey? && a.lsOk ==> a.key in s.heads)
              && (a.listed.Some? ==>
                    var commit := Commit(KeyRepo(a.key), s.inFlight[a.key]);
                    forall c | c in a.listed.value :: Open(s.ledger, Place(commit, c)))
              && Step(w, s, a) == ReconcileStep(w, s, a.key, a.lsOk, a.listed)
    ensures a.Resolve? ==> s.pc.Resolving? && s.pc.key in s.inFlight && Step(w, s, a) == ResolveStep(s)
    ensures a.BootDone? ==> s.pc == Boot({}) && Step(w, s, a) == s.(pc := Idle, rest := [])
  {
    hide Watched;
  }

  lemma UnfoldSweep(w: World, s: State, a: Action)
    requires Enabled(w, s, a)
    ensures a.StartSweep? ==> s.pc.Idle? && s.rest == [] && !s.shutdown && Step(w, s, a) == s.(rest := w.refs)
    ensures a.NextRef? ==>
              && s.pc.Idle? && s.rest != [] && !s.shutdown
              && Step(w, s, a) ==
                 s.(pc := Polling(Loop(s.rest[0], 1, Moves(s.heads, BranchKey(s.rest[0])))), rest := s.rest[1..])
    ensures a.PullsDone? ==> s.pc.Pulls? && Step(w, s, a) == s.(pc := Idle)
    ensures a.LeaveBranch? ==> s.pc.Returned? && Step(w, s, a) == s.(pc := Pulls(s.pc.loop.ref))
  {
  }

  lemma UnfoldPoll(w: World, s: State, a: Action)
    requires Enabled(w, s, a)
    ensures a.LsRemote? ==>
              && s.pc.Polling? && (a.ok ==> BranchKey(s.pc.loop.ref) in s.heads)
              && Step(w, s, a) == LsRemoteStep(s, a.ok)
    ensures a.Clone? ==>
              && s.pc.Sampled? && (a.ok ==> BranchKey(s.pc.loop.ref) in s.heads)
              && Step(w, s, a) == CloneStep(s, a.ok)
    ensures a.SkipClone? ==>
              && s.pc.Cloned? && Commit(s.pc.loop.ref.repo, s.pc.sha) in s.seen
              && Step(w, s, a) == s.(seen := s.seen + {Commit(s.pc.loop.ref.repo, s.pc.tip)},
                                     pc := Returned(s.pc.loop, s.pc.tip))
  {
  }

  lemma UnfoldBegin(w: World, s: State, a: Action)
    requires Enabled(w, s, a)
    ensures a.StartBranchRun? ==>
              && s.pc.Cloned? && Commit(s.pc.loop.ref.repo, s.pc.sha) !in s.seen
              && FitsTruth(w, Commit(s.pc.loop.ref.repo, s.pc.sha), a.truth)
              && Step(w, s, a) ==
                 Begin(s, NewRun(w, s, FromBranch(s.pc.loop, s.pc.tip, s.pc.at), s.pc.sha, a.truth))
    ensures a.StartPull? ==>
              && s.pc.Pulls? && !s.shutdown && Commit(s.pc.ref.repo, a.sha) !in s.seen
              && FitsTruth(w, Commit(s.pc.ref.repo, a.sha), a.truth)
              && Step(w, s, a) == Begin(s, NewRun(w, s, FromPull(s.pc.ref, a.number), a.sha, a.truth))
  {
    hide NewRun;
  }

  lemma UnfoldEnd(w: World, s: State, a: Action)
    requires Enabled(w, s, a)
    ensures a.Judge? ==> s.pc.Running? && s.pc.run.gate.pc.Done? && Step(w, s, a) == JudgeStep(w, s)
    ensures a.Attempt? ==> s.pc.Promoting? && Step(w, s, a) == AttemptStep(s, a.ok)
    ensures a.AfterPromotion? ==>
              s.pc.Promoted? && Step(w, s, a) == s.(pc := if s.shutdown then Stopped else Marking(s.pc.run))
    ensures a.Mark? ==> s.pc.Marking? && Step(w, s, a) == MarkStep(s)
  {
  }

  lemma UnfoldLeave(w: World, s: State, a: Action)
    requires Enabled(w, s, a)
    ensures a.ClearSuperseded? ==> s.pc.Superseding? && Step(w, s, a) == ClearSupersededStep(s)
    ensures a.Clear? ==> s.pc.Clearing? && Step(w, s, a) == ClearStep(w, s, a.skipped)
    ensures a.Skip? ==> s.pc.Skipping? && s.pc.run.origin.FromBranch? && Step(w, s, a) == SkipStep(s)
  {
  }

  // ----- runs of the engine -----

  /** A process starts with whatever the previous one persisted. */
  ghost predicate Starts(s: State) {
    s.pc == Boot(s.inFlight.Keys) && !s.shutdown && s.rest == [] && s.promotions == []
  }

  ghost function Exec(w: World, first: State, schedule: seq<Action>): Option<State> {
    if schedule == [] then Some(first) else
      var before := Exec(w, first, schedule[..|schedule| - 1]);
      var a := schedule[|schedule| - 1];
      if before.Some? && Enabled(w, before.value, a) then Some(Step(w, before.value, a)) else None
  }

  lemma Extend(w: World, first: State, schedule: seq<Action>, a: Action)
    requires Exec(w, first, schedule).Some? && Enabled(w, Exec(w, first, schedule).value, a)
    ensures Exec(w, first, schedule + [a]) == Some(Step(w, Exec(w, first, schedule).value, a))
  {
    assert (schedule + [a])[..|schedule|] == schedule;
  }

  lemma {:induction false} ExecConcat(w: World, first: State, a: seq<Action>, b: seq<Action>)
    requires Exec(w, first, a).Some?
    ensures Exec(w, first, a + b) == Exec(w, Exec(w, first, a).value, b)
  {
    hide Enabled, Step;
    if b == [] {
      assert a + b == a;
    } else {
      var n := |b| - 1;
      ExecConcat(w, first, a, b[..n]);
      assert (a + b)[..|a + b| - 1] == a + b[..n];
    }
  }

  ghost predicate Reachable(w: World, first: State, s: State) {
    exists schedule :: Exec(w, first, schedule) == Some(s)
  }
}
