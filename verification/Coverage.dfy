/** What marking skipped commits achieves on an append-only branch, over whole runs of the
    engine: no commit between two tested ones is left without an explanation. */
module Coverage {
  import opened Common
  import opened Lifecycle
  import opened Skipped
  import Store = LifecycleStore
  import Recovery
  import G = Gate

  // ----- an append-only branch -----

  predicate Distinct(history: seq<Sha>) {
    forall i, j | 0 <= i < j < |history| :: history[i] != history[j]
  }

  /** The position of a commit in the history, or -1. */
  function Pos(history: seq<Sha>, sha: Sha): (i: int)
    ensures -1 <= i < |history| && (i >= 0 <==> sha in history) && (i >= 0 ==> history[i] == sha)
  {
    if history == [] then -1
    else if history[|history| - 1] == sha then |history| - 1
    else Pos(history[..|history| - 1], sha)
  }

  /** The commits after one position up to and including another: CompareCommits. */
  function Gap(history: seq<Sha>, base: int, head: int): seq<Sha> {
    if 0 <= base <= head < |history| then history[base + 1..head + 1] else []
  }

  predicate OnBranch(run: Run, ref: Ref) { run.origin.FromBranch? && run.origin.loop.ref == ref }

  /** The branch only moves forward along the history; comparing two of its commits
      succeeds and lists the whole gap, which has at most 250 commits. */
  predicate AppendOnly(s: State, a: Action, ref: Ref, history: seq<Sha>) {
    match a
    case Move(k, sha) =>
      k == BranchKey(ref) ==>
        sha in history && (k in s.heads ==> Pos(history, s.heads[k].sha) < Pos(history, sha))
    case Clear(skipped) =>
      s.pc.Clearing? && OnBranch(s.pc.run, ref) && s.pc.prev.Some? && s.pc.prev.value != s.pc.run.sha ==>
        var base, head := Pos(history, s.pc.prev.value), Pos(history, s.pc.run.sha);
        head <= base + 250 && skipped == Gap(history, base, head)
    case _ => true
  }

  ghost predicate AppendOnlyRun(w: World, first: State, schedule: seq<Action>, ref: Ref, history: seq<Sha>) {
    schedule == [] ||
    var n := |schedule| - 1;
    && AppendOnlyRun(w, first, schedule[..n], ref, history)
    && Exec(w, first, schedule[..n]).Some?
    && AppendOnly(Exec(w, first, schedule[..n]).value, schedule[n], ref, history)
  }

  // ----- what has been tested -----

  /** The commits marked after a completed run, those of them that were runs of the branch
      itself, and the sampled tips that a clone raced past. */
  datatype Account = Account(tested: set<Commit>, ofBranch: set<Commit>, raced: set<Commit>)

  function Noted(acc: Account, s: State, a: Action, ref: Ref): Account {
    if a.Mark? && s.pc.Marking? then
      var run := s.pc.run;
      Account(acc.tested + {RunCommit(run)},
              acc.ofBranch + (if OnBranch(run, ref) then {RunCommit(run)} else {}),
              acc.raced + if run.origin.FromBranch? && run.origin.tip != run.sha
                          then {Commit(RefOf(run.origin).repo, run.origin.tip)} else {})
    else if a.SkipClone? && s.pc.Cloned? then acc.(raced := acc.raced + {Commit(s.pc.loop.ref.repo, s.pc.tip)})
    else acc
  }

  ghost function AccountOf(w: World, first: State, schedule: seq<Action>, ref: Ref): Account
    requires Exec(w, first, schedule).Some?
  {
    if schedule == [] then Account({}, {}, {}) else
      var n := |schedule| - 1;
      Noted(AccountOf(w, first, schedule[..n], ref), Exec(w, first, schedule[..n]).value, schedule[n], ref)
  }

  function RollupOf(c: Commit): Place { Place(c, Rollup) }

  /** Processed before this process started, tested, raced past, or marked with an error. */
  predicate Accounted(first: State, s: State, acc: Account, c: Commit) {
    || c in first.seen || c in acc.tested || c in acc.raced
    || (RollupOf(c) in s.ledger && s.ledger[RollupOf(c)] == Error)
  }

  /** A run on the commit is in progress. */
  predicate Busy(s: State, c: Commit) {
    match s.pc
    case Running(run) => RunCommit(run) == c
    case Superseding(run) => RunCommit(run) == c
    case Promoting(run, _, _) => RunCommit(run) == c
    case Promoted(run) => RunCommit(run) == c
    case Marking(run) => RunCommit(run) == c
    case _ => false
  }

  /** What the engine is about to mark skipped. */
  predicate Upcoming(s: State, ref: Ref, history: seq<Sha>, j: nat)
    requires j < |history|
  {
    match s.pc
    case Clearing(run, prev) =>
      OnBranch(run, ref) && prev.Some? && Pos(history, prev.value) < j < Pos(history, run.sha)
    case Skipping(run, shas) => OnBranch(run, ref) && history[j] in shas
    case _ => false
  }

  // ----- the invariants -----

  /** Everything seen is accounted for; a superseded run has its error; a marked run is
      among the tested ones. */
  ghost predicate AccountInv(first: State, s: State, acc: Account) {
    && (forall c | c in s.seen :: c in first.seen || c in acc.tested || c in acc.raced)
    && (s.pc.Superseding? ==>
          var p := RollupOf(RunCommit(s.pc.run));
          p in s.ledger && s.ledger[p] == Error)
    && (s.pc.Clearing? || s.pc.Skipping? ==> RunCommit(s.pc.run) in acc.tested)
  }

  lemma AccountWithin(w: World, first: State, s: State, a: Action, acc: Account, ref: Ref)
    requires AccountInv(first, s, acc) && Enabled(w, s, a)
    requires a.Move? || a.Shut? || a.Expire? || a.Observe? || a.Fire? || a.Gate?
    ensures AccountInv(first, Step(w, s, a), Noted(acc, s, a, ref))
  {
    hide Step, Enabled, G.Step, G.Enabled, RunCommit;
    UnfoldWithin(w, s, a);
  }

  lemma AccountJudges(w: World, first: State, s: State, acc: Account)
    requires AccountInv(first, s, acc) && s.pc.Running? && s.pc.run.gate.pc.Done?
    ensures AccountInv(first, JudgeStep(w, s), acc)
  {
    hide PromoteTarget, G.WasSuperseded;
  }

  lemma AccountEnds(w: World, first: State, s: State, a: Action, acc: Account, ref: Ref)
    requires AccountInv(first, s, acc) && Enabled(w, s, a) && (a.Attempt? || a.AfterPromotion? || a.Mark?)
    ensures AccountInv(first, Step(w, s, a), Noted(acc, s, a, ref))
  {
    hide Step, Enabled, Posted;
    UnfoldEnd(w, s, a);
  }

  lemma AccountClears(w: World, first: State, s: State, a: Action, acc: Account)
    requires AccountInv(first, s, acc) && Enabled(w, s, a) && (a.ClearSuperseded? || a.Clear?)
    ensures AccountInv(first, Step(w, s, a), acc)
  {
    hide Step, Enabled, G.WasSuperseded, RunCommit;
    UnfoldLeave(w, s, a);
  }

  lemma AccountSkips(first: State, s: State, acc: Account)
    requires AccountInv(first, s, acc) && s.pc.Skipping? && s.pc.run.origin.FromBranch?
    ensures AccountInv(first, SkipStep(s), acc)
  {
    hide G.WasSuperseded, Posted, RunCommit;
  }

  lemma ReconcileAside(w: World, s: State, a: Action)
    requires s.pc.Boot? && a.Reconcile? && a.key in s.inFlight && (a.key.BranchKey? && a.lsOk ==> a.key in s.heads)
    ensures OrderAside(s, ReconcileStep(w, s, a.key, a.lsOk, a.listed))
  {
    hide Watched;
  }

  lemma ResolveAside(s: State)
    requires s.pc.Resolving? && s.pc.key in s.inFlight
    ensures OrderAside(s, ResolveStep(s))
  {
  }

  lemma AccountBoots(w: World, first: State, s: State, a: Action, acc: Account)
    requires AccountInv(first, s, acc) && Enabled(w, s, a) && (a.Reconcile? || a.Resolve? || a.BootDone?)
    ensures AccountInv(first, Step(w, s, a), acc)
  {
    hide Step, Enabled, ReconcileStep, ResolveStep, Watched;
    UnfoldBoot(w, s, a);
    if a.Reconcile? { ReconcileAside(w, s, a); }
    if a.Resolve? { ResolveAside(s); }
    hide RunCommit;
  }

  lemma AccountPolls(w: World, first: State, s: State, a: Action, acc: Account, ref: Ref)
    requires AccountInv(first, s, acc) && Enabled(w, s, a) && (a.LsRemote? || a.Clone? || a.SkipClone?)
    ensures AccountInv(first, Step(w, s, a), Noted(acc, s, a, ref))
  {
    hide Step, Enabled, LsRemoteStep, CloneStep;
    UnfoldPoll(w, s, a);
    if a.LsRemote? { LsRemoteAside(s, a.ok); }
    if a.Clone? { ClonePc(s, a.ok); }
    hide RunCommit;
  }

  lemma ClonePc(s: State, ok: bool)
    requires s.pc.Sampled? && (ok ==> BranchKey(s.pc.loop.ref) in s.heads)
    ensures CloneStep(s, ok).pc.Cloned? || CloneStep(s, ok).pc.Pulls?
    ensures CloneStep(s, ok).ledger == s.ledger && CloneStep(s, ok).last == s.last
  {
  }

  lemma AccountSweeps(w: World, first: State, s: State, a: Action, acc: Account)
    requires AccountInv(first, s, acc) && Enabled(w, s, a)
    requires a.StartSweep? || a.NextRef? || a.PullsDone? || a.LeaveBranch? || a.StartBranchRun? || a.StartPull?
    ensures AccountInv(first, Step(w, s, a), acc)
  {
    hide Step, Enabled, NewRun;
    if a.StartBranchRun? || a.StartPull? { UnfoldBegin(w, s, a); } else { UnfoldSweep(w, s, a); }
  }

  lemma AccountStep(w: World, first: State, s: State, a: Action, acc: Account, ref: Ref)
    requires AccountInv(first, s, acc) && Enabled(w, s, a)
    ensures AccountInv(first, Step(w, s, a), Noted(acc, s, a, ref))
  {
    assert !a.Mark? && !a.SkipClone? ==> Noted(acc, s, a, ref) == acc;
    hide Step, Enabled, AccountInv, Noted, JudgeStep, SkipStep;
    if a.Judge? {
      UnfoldEnd(w, s, a);
      AccountJudges(w, first, s, acc);
    } else if a.Move? || a.Shut? || a.Expire? || a.Observe? || a.Fire? || a.Gate? {
      AccountWithin(w, first, s, a, acc, ref);
    } else if a.Attempt? || a.AfterPromotion? || a.Mark? {
      AccountEnds(w, first, s, a, acc, ref);
    } else if a.ClearSuperseded? || a.Clear? {
      AccountClears(w, first, s, a, acc);
    } else if a.Skip? {
      UnfoldLeave(w, s, a);
      AccountSkips(first, s, acc);
    } else if a.Reconcile? || a.Resolve? || a.BootDone? {
      AccountBoots(w, first, s, a, acc);
    } else if a.LsRemote? || a.Clone? || a.SkipClone? {
      AccountPolls(w, first, s, a, acc, ref);
    } else {
      AccountSweeps(w, first, s, a, acc);
    }
  }

  /** A commit that is accounted for, or being run, stays so unless the engine stops. */
  ghost predicate Handled(first: State, s: State, acc: Account, c: Commit) {
    s.pc.Stopped? || Accounted(first, s, acc, c) || Busy(s, c)
  }

  lemma HandledWithin(w: World, first: State, s: State, a: Action, acc: Account, ref: Ref, c: Commit)
    requires Handled(first, s, acc, c) && Enabled(w, s, a)
    requires a.Move? || a.Shut? || a.Expire? || a.Observe? || a.Fire? || a.Gate?
    ensures Handled(first, Step(w, s, a), acc, c)
  {
    hide Step, Enabled, G.Step, G.Enabled;
    UnfoldWithin(w, s, a);
  }

  lemma JudgedBusy(w: World, s: State, c: Commit)
    requires s.pc.Running? && s.pc.run.gate.pc.Done?
    ensures JudgeStep(w, s).pc.Stopped? || (Busy(s, c) ==> Busy(JudgeStep(w, s), c))
  {
    Recovery.JudgedPc(w, s);
    hide JudgeStep, Recovery.SameFrame;
  }

  lemma JudgedRollup(w: World, s: State, p: Place)
    requires s.pc.Running? && s.pc.run.gate.pc.Done? && p.context == Rollup && p in s.ledger && s.ledger[p] == Error
    ensures p in JudgeStep(w, s).ledger && JudgeStep(w, s).ledger[p] == Error
  {
    hide PromoteTarget, G.WasSuperseded, RunCommit;
  }

  lemma HandledJudges(w: World, first: State, s: State, acc: Account, c: Commit)
    requires Handled(first, s, acc, c) && s.pc.Running? && s.pc.run.gate.pc.Done?
    ensures Handled(first, JudgeStep(w, s), acc, c)
  {
    JudgedBusy(w, s, c);
    if RollupOf(c) in s.ledger && s.ledger[RollupOf(c)] == Error { JudgedRollup(w, s, RollupOf(c)); }
    hide JudgeStep, Busy;
  }

  lemma HandledPromotes(w: World, first: State, s: State, a: Action, acc: Account, c: Commit)
    requires Handled(first, s, acc, c) && Enabled(w, s, a) && (a.Attempt? || a.AfterPromotion?)
    ensures Handled(first, Step(w, s, a), acc, c)
  {
    hide Step, Enabled;
    UnfoldEnd(w, s, a);
  }

  lemma HandledMarks(first: State, s: State, acc: Account, ref: Ref, c: Commit)
    requires Handled(first, s, acc, c) && s.pc.Marking?
    ensures Handled(first, MarkStep(s), Noted(acc, s, Mark, ref), c)
  {
  }

  lemma HandledClears(w: World, first: State, s: State, a: Action, acc: Account, c: Commit)
    requires AccountInv(first, s, acc) && Handled(first, s, acc, c) && Enabled(w, s, a)
    requires a.ClearSuperseded? || a.Clear?
    ensures Handled(first, Step(w, s, a), acc, c)
  {
    hide Step, Enabled, G.WasSuperseded, RunCommit;
    UnfoldLeave(w, s, a);
  }

  lemma HandledBoots(w: World, first: State, s: State, a: Action, acc: Account, c: Commit)
    requires Handled(first, s, acc, c) && Enabled(w, s, a) && (a.Reconcile? || a.Resolve? || a.BootDone?)
    ensures Handled(first, Step(w, s, a), acc, c)
  {
    hide Step, Enabled, Watched;
    UnfoldBoot(w, s, a);
  }

  lemma HandledPolls(w: World, first: State, s: State, a: Action, acc: Account, ref: Ref, c: Commit)
    requires Handled(first, s, acc, c) && Enabled(w, s, a) && (a.LsRemote? || a.Clone? || a.SkipClone?)
    ensures Handled(first, Step(w, s, a), Noted(acc, s, a, ref), c)
  {
    hide Step, Enabled;
    UnfoldPoll(w, s, a);
  }

  lemma HandledSweeps(w: World, first: State, s: State, a: Action, acc: Account, c: Commit)
    requires Handled(first, s, acc, c) && Enabled(w, s, a)
    requires a.StartSweep? || a.NextRef? || a.PullsDone? || a.LeaveBranch? || a.StartBranchRun? || a.StartPull?
    ensures Handled(first, Step(w, s, a), acc, c)
  {
    hide Step, Enabled, NewRun;
    if a.StartBranchRun? || a.StartPull? { UnfoldBegin(w, s, a); } else { UnfoldSweep(w, s, a); }
  }

  lemma HandledStep(w: World, first: State, s: State, a: Action, acc: Account, ref: Ref, c: Commit)
    requires AccountInv(first, s, acc) && Handled(first, s, acc, c) && Enabled(w, s, a)
    ensures Handled(first, Step(w, s, a), Noted(acc, s, a, ref), c)
  {
    assert !a.Mark? && !a.SkipClone? ==> Noted(acc, s, a, ref) == acc;
    hide Step, Enabled, AccountInv, Handled, Noted, JudgeStep, MarkStep, SkipStep;
    if a.Judge? || a.Mark? {
      UnfoldEnd(w, s, a);
      if a.Mark? { HandledMarks(first, s, acc, ref, c); } else { HandledJudges(w, first, s, acc, c); }
    } else if a.Move? || a.Shut? || a.Expire? || a.Observe? || a.Fire? || a.Gate? {
      HandledWithin(w, first, s, a, acc, ref, c);
    } else if a.Attempt? || a.AfterPromotion? {
      HandledPromotes(w, first, s, a, acc, c);
    } else if a.ClearSuperseded? || a.Clear? {
      HandledClears(w, first, s, a, acc, c);
    } else if a.Skip? {
      UnfoldLeave(w, s, a);
      SkipHandled(first, s, acc, c);
    } else if a.Reconcile? || a.Resolve? || a.BootDone? {
      HandledBoots(w, first, s, a, acc, c);
    } else if a.LsRemote? || a.Clone? || a.SkipClone? {
      HandledPolls(w, first, s, a, acc, ref, c);
    } else {
      HandledSweeps(w, first, s, a, acc, c);
    }
  }

  /** The last tested commit, the clone under test and the head come in this order. */
  ghost predicate OrderInv(s: State, ref: Ref, history: seq<Sha>) {
    && (BranchKey(ref) in s.heads ==> s.heads[BranchKey(ref)].sha in history)
    && (ref in s.last ==> s.last[ref] in history && NotBeyondHead(s, ref, history, s.last[ref]))
    && match s.pc
       case Cloned(loop, _, sha, _) => loop.ref == ref ==> InOrder(s, ref, history, sha)
       case Running(run) => OnBranch(run, ref) ==> InOrder(s, ref, history, run.sha)
       case Promoting(run, _, _) => OnBranch(run, ref) ==> InOrder(s, ref, history, run.sha)
       case Promoted(run) => OnBranch(run, ref) ==> InOrder(s, ref, history, run.sha)
       case Marking(run) => OnBranch(run, ref) ==> InOrder(s, ref, history, run.sha)
       case Clearing(run, prev) =>
         OnBranch(run, ref) ==>
           && ref in s.last && s.last[ref] == run.sha
           && (prev.Some? ==> prev.value in history && Pos(history, prev.value) <= Pos(history, run.sha))
       case Skipping(run, _) => OnBranch(run, ref) ==> ref in s.last && s.last[ref] == run.sha
       case _ => true
  }

  predicate NotBeyondHead(s: State, ref: Ref, history: seq<Sha>, sha: Sha) {
    BranchKey(ref) in s.heads && Pos(history, sha) <= Pos(history, s.heads[BranchKey(ref)].sha)
  }

  predicate InOrder(s: State, ref: Ref, history: seq<Sha>, sha: Sha) {
    && sha in history && NotBeyondHead(s, ref, history, sha)
    && (ref in s.last ==> Pos(history, s.last[ref]) <= Pos(history, sha))
  }

  lemma OrderMoves(w: World, s: State, a: Action, ref: Ref, history: seq<Sha>)
    requires OrderInv(s, ref, history) && Enabled(w, s, a) && a.Move? && AppendOnly(s, a, ref, history)
    ensures OrderInv(Step(w, s, a), ref, history)
  {
    hide Step, Enabled, Pos;
    UnfoldWithin(w, s, a);
  }

  lemma SameOrder(s: State, s': State, ref: Ref, history: seq<Sha>)
    requires s'.heads == s.heads && s'.last == s.last
    ensures forall sha :: InOrder(s', ref, history, sha) == InOrder(s, ref, history, sha)
    ensures forall sha :: NotBeyondHead(s', ref, history, sha) == NotBeyondHead(s, ref, history, sha)
  {
  }

  lemma OrderWithin(w: World, s: State, a: Action, ref: Ref, history: seq<Sha>)
    requires OrderInv(s, ref, history) && Enabled(w, s, a)
    requires a.Shut? || a.Expire? || a.Observe? || a.Fire? || a.Gate?
    ensures OrderInv(Step(w, s, a), ref, history)
  {
    hide Step, Enabled, Pos, InOrder, NotBeyondHead, G.Step, G.Enabled, Posted;
    UnfoldWithin(w, s, a);
    SameOrder(s, Step(w, s, a), ref, history);
  }

  lemma OrderEnds(w: World, s: State, a: Action, ref: Ref, history: seq<Sha>)
    requires OrderInv(s, ref, history) && Enabled(w, s, a) && (a.Attempt? || a.AfterPromotion?)
    ensures OrderInv(Step(w, s, a), ref, history)
  {
    hide Step, Enabled, Pos, InOrder, NotBeyondHead, Posted, RunCommit;
    UnfoldEnd(w, s, a);
    SameOrder(s, Step(w, s, a), ref, history);
  }

  lemma OrderJudges(w: World, s: State, ref: Ref, history: seq<Sha>)
    requires OrderInv(s, ref, history) && s.pc.Running? && s.pc.run.gate.pc.Done?
    ensures OrderInv(JudgeStep(w, s), ref, history)
  {
    SameOrder(s, JudgeStep(w, s), ref, history);
    hide Pos, InOrder, NotBeyondHead, PromoteTarget, G.WasSuperseded, Posted, RunCommit;
  }

  lemma OrderMarks(s: State, ref: Ref, history: seq<Sha>)
    requires OrderInv(s, ref, history) && s.pc.Marking?
    ensures OrderInv(MarkStep(s), ref, history)
  {
    hide Pos, RunCommit;
  }

  lemma OrderClears(w: World, s: State, skipped: seq<Sha>, ref: Ref, history: seq<Sha>)
    requires OrderInv(s, ref, history) && s.pc.Clearing?
    ensures OrderInv(ClearStep(w, s, skipped), ref, history)
  {
    SameOrder(s, ClearStep(w, s, skipped), ref, history);
    hide Pos, InOrder, NotBeyondHead, G.WasSuperseded, RunCommit;
  }

  lemma OrderClearsSuperseded(s: State, ref: Ref, history: seq<Sha>)
    requires OrderInv(s, ref, history) && s.pc.Superseding?
    ensures OrderInv(ClearSupersededStep(s), ref, history)
  {
    SameOrder(s, ClearSupersededStep(s), ref, history);
    hide Pos, InOrder, NotBeyondHead, RunCommit;
  }

  lemma OrderSkips(s: State, ref: Ref, history: seq<Sha>)
    requires OrderInv(s, ref, history) && s.pc.Skipping? && s.pc.run.origin.FromBranch?
    ensures OrderInv(SkipStep(s), ref, history)
  {
    SameOrder(s, SkipStep(s), ref, history);
    hide Pos, InOrder, NotBeyondHead, G.WasSuperseded, Posted, RunCommit;
  }

  lemma OrderLeaves(w: World, s: State, a: Action, ref: Ref, history: seq<Sha>)
    requires OrderInv(s, ref, history) && Enabled(w, s, a) && (a.ClearSuperseded? || a.Clear? || a.Skip?)
    ensures OrderInv(Step(w, s, a), ref, history)
  {
    hide Step, Enabled, OrderInv, ClearStep, ClearSupersededStep, SkipStep;
    UnfoldLeave(w, s, a);
    match a
    case Clear(skipped) => OrderClears(w, s, skipped, ref, history);
    case ClearSuperseded => OrderClearsSuperseded(s, ref, history);
    case Skip => OrderSkips(s, ref, history);
  }

  /** The engine is between runs, with the same heads and the same last commits. */
  predicate OrderAside(s: State, s': State) {
    && s'.heads == s.heads && s'.last == s.last && (s.pc.Polling? ==> s'.ledger == s.ledger)
    && match s'.pc
       case Boot(_) => true
       case Resolving(_, _, _) => true
       case Idle => true
       case Polling(_) => true
       case Sampled(_, _) => true
       case Returned(_, _) => true
       case Pulls(_) => true
       case _ => false
  }

  lemma AsideKeepsOrder(s: State, s': State, ref: Ref, history: seq<Sha>)
    requires OrderInv(s, ref, history) && OrderAside(s, s')
    ensures OrderInv(s', ref, history)
  {
    SameOrder(s, s', ref, history);
    hide Pos, InOrder, NotBeyondHead;
  }

  lemma LsRemoteAside(s: State, ok: bool)
    requires s.pc.Polling? && (ok ==> BranchKey(s.pc.loop.ref) in s.heads)
    ensures OrderAside(s, LsRemoteStep(s, ok))
  {
  }

  lemma SweepAside(w: World, s: State, a: Action)
    requires Enabled(w, s, a)
    requires a.Reconcile? || a.Resolve? || a.BootDone? || a.StartSweep? || a.NextRef? || a.LsRemote?
             || a.SkipClone? || a.PullsDone? || a.LeaveBranch?
    ensures OrderAside(s, Step(w, s, a))
  {
    hide Step, Enabled, Watched, LsRemoteStep, ReconcileStep, ResolveStep;
    if a.Reconcile? || a.Resolve? || a.BootDone? {
      UnfoldBoot(w, s, a);
      if a.Reconcile? { ReconcileAside(w, s, a); }
      if a.Resolve? { ResolveAside(s); }
    } else if a.LsRemote? || a.SkipClone? {
      UnfoldPoll(w, s, a);
      if a.LsRemote? { LsRemoteAside(s, a.ok); }
    } else {
      UnfoldSweep(w, s, a);
    }
  }

  lemma OrderSweeps(w: World, s: State, a: Action, ref: Ref, history: seq<Sha>)
    requires OrderInv(s, ref, history) && Enabled(w, s, a)
    requires a.Reconcile? || a.Resolve? || a.BootDone? || a.StartSweep? || a.NextRef? || a.LsRemote?
             || a.SkipClone? || a.PullsDone? || a.LeaveBranch?
    ensures OrderInv(Step(w, s, a), ref, history)
  {
    hide Step, Enabled, OrderAside, OrderInv;
    SweepAside(w, s, a);
    AsideKeepsOrder(s, Step(w, s, a), ref, history);
  }

  lemma OrderClones(s: State, ok: bool, ref: Ref, history: seq<Sha>)
    requires OrderInv(s, ref, history) && s.pc.Sampled? && (ok ==> BranchKey(s.pc.loop.ref) in s.heads)
    ensures OrderInv(CloneStep(s, ok), ref, history)
  {
    hide Pos;
  }

  lemma OrderBegins(s: State, run: Run, ref: Ref, history: seq<Sha>)
    requires OrderInv(s, ref, history)
    requires (s.pc.Pulls? && run.origin.FromPull?)
             || (s.pc.Cloned? && run.origin.FromBranch? && run.origin.loop == s.pc.loop && run.sha == s.pc.sha)
    ensures OrderInv(Begin(s, run), ref, history)
  {
    SameOrder(s, Begin(s, run), ref, history);
    hide Pos, InOrder, NotBeyondHead;
  }

  lemma OrderStarts(w: World, s: State, a: Action, ref: Ref, history: seq<Sha>)
    requires OrderInv(s, ref, history) && Enabled(w, s, a) && (a.Clone? || a.StartBranchRun? || a.StartPull?)
    ensures OrderInv(Step(w, s, a), ref, history)
  {
    hide Step, Enabled, OrderInv, NewRun, CloneStep;
    if a.Clone? {
      UnfoldPoll(w, s, a);
      OrderClones(s, a.ok, ref, history);
    } else {
      UnfoldBegin(w, s, a);
      var o := if a.StartPull? then FromPull(s.pc.ref, a.number) else FromBranch(s.pc.loop, s.pc.tip, s.pc.at);
      var sha := if a.StartPull? then a.sha else s.pc.sha;
      Store.NewRunIsOf(w, s, o, sha, a.truth);
      OrderBegins(s, NewRun(w, s, o, sha, a.truth), ref, history);
    }
  }

  lemma OrderStep(w: World, s: State, a: Action, ref: Ref, history: seq<Sha>)
    requires OrderInv(s, ref, history) && Enabled(w, s, a) && AppendOnly(s, a, ref, history)
    ensures OrderInv(Step(w, s, a), ref, history)
  {
    hide Step, Enabled, OrderInv, AppendOnly, JudgeStep, MarkStep;
    if a.Mark? || a.Judge? {
      UnfoldEnd(w, s, a);
      if a.Mark? { OrderMarks(s, ref, history); } else { OrderJudges(w, s, ref, history); }
    } else if a.Move? {
      OrderMoves(w, s, a, ref, history);
    } else if a.Shut? || a.Expire? || a.Observe? || a.Fire? || a.Gate? {
      OrderWithin(w, s, a, ref, history);
    } else if a.Attempt? || a.AfterPromotion? {
      OrderEnds(w, s, a, ref, history);
    } else if a.ClearSuperseded? || a.Clear? || a.Skip? {
      OrderLeaves(w, s, a, ref, history);
    } else if a.Clone? || a.StartBranchRun? || a.StartPull? {
      OrderStarts(w, s, a, ref, history);
    } else {
      OrderSweeps(w, s, a, ref, history);
    }
  }

  // ----- coverage -----

  /** A tested commit of the branch: in this process, or the last one of an earlier process. */
  predicate Anchor(first: State, acc: Account, ref: Ref, sha: Sha) {
    Commit(ref.repo, sha) in acc.ofBranch || (ref in first.last && first.last[ref] == sha)
  }

  ghost predicate Covered(first: State, s: State, acc: Account, ref: Ref, history: seq<Sha>, i: nat, j: nat)
    requires i <= j < |history|
  {
    Anchor(first, acc, ref, history[i]) && ref in s.last && j <= Pos(history, s.last[ref]) ==>
      Handled(first, s, acc, Commit(ref.repo, history[j])) || Upcoming(s, ref, history, j)
  }

  ghost predicate CoverInv(first: State, s: State, acc: Account, ref: Ref, history: seq<Sha>) {
    && (ref !in s.last ==> ref !in first.last && acc.ofBranch == {})
    && forall i: nat, j: nat | i <= j < |history| :: Covered(first, s, acc, ref, history, i, j)
  }

  /** Steps that neither record a run nor mark skipped commits. */
  predicate Neutral(s: State, s': State) {
    s'.last == s.last && (s.pc.Clearing? || s.pc.Skipping? ==> s'.pc == s.pc)
  }

  lemma WithinIsNeutral(w: World, s: State, a: Action)
    requires Enabled(w, s, a) && (a.Move? || a.Shut? || a.Expire? || a.Observe? || a.Fire? || a.Gate?)
    ensures Neutral(s, Step(w, s, a))
  {
    hide Step, Enabled, G.Step, G.Enabled, Posted;
    UnfoldWithin(w, s, a);
  }

  lemma EndIsNeutral(w: World, s: State, a: Action)
    requires Enabled(w, s, a) && (a.Judge? || a.Attempt? || a.AfterPromotion? || a.ClearSuperseded?)
    ensures Neutral(s, Step(w, s, a))
  {
    hide Step, Enabled, G.WasSuperseded, PromoteTarget, Posted;
    if a.ClearSuperseded? { UnfoldLeave(w, s, a); } else { UnfoldEnd(w, s, a); }
  }

  lemma SweepIsNeutral(w: World, s: State, a: Action)
    requires Enabled(w, s, a)
    requires a.Reconcile? || a.Resolve? || a.BootDone? || a.StartSweep? || a.NextRef? || a.LsRemote? || a.Clone?
             || a.SkipClone? || a.PullsDone? || a.LeaveBranch? || a.StartBranchRun? || a.StartPull?
    ensures Neutral(s, Step(w, s, a))
  {
    hide Step, Enabled, NewRun, Watched, ReconcileStep, ResolveStep, LsRemoteStep, CloneStep;
    if a.Reconcile? || a.Resolve? || a.BootDone? {
      UnfoldBoot(w, s, a);
      if a.Reconcile? { ReconcileAside(w, s, a); }
      if a.Resolve? { ResolveAside(s); }
    } else if a.LsRemote? || a.Clone? || a.SkipClone? {
      UnfoldPoll(w, s, a);
      if a.LsRemote? { LsRemoteAside(s, a.ok); }
      if a.Clone? { ClonePc(s, a.ok); }
    } else if a.StartBranchRun? || a.StartPull? {
      UnfoldBegin(w, s, a);
    } else {
      UnfoldSweep(w, s, a);
    }
  }

  lemma SameUpcoming(w: World, s: State, a: Action, acc: Account, ref: Ref)
    requires Enabled(w, s, a) && !a.Mark? && !a.Clear? && !a.Skip?
    ensures Neutral(s, Step(w, s, a)) && Noted(acc, s, a, ref).ofBranch == acc.ofBranch
  {
    hide Enabled, Step, Neutral;
    if a.Move? || a.Shut? || a.Expire? || a.Observe? || a.Fire? || a.Gate? {
      WithinIsNeutral(w, s, a);
    } else if a.Judge? || a.Attempt? || a.AfterPromotion? || a.ClearSuperseded? {
      EndIsNeutral(w, s, a);
    } else {
      SweepIsNeutral(w, s, a);
    }
  }

  lemma CoverElsewhere(w: World, first: State, s: State, a: Action, acc: Account, ref: Ref, history: seq<Sha>)
    requires AccountInv(first, s, acc) && CoverInv(first, s, acc, ref, history) && Enabled(w, s, a)
    requires !a.Mark? && !a.Clear? && !a.Skip?
    ensures CoverInv(first, Step(w, s, a), Noted(acc, s, a, ref), ref, history)
  {
    hide Step, Enabled, Noted, Handled, AccountInv;
    var s', acc' := Step(w, s, a), Noted(acc, s, a, ref);
    SameUpcoming(w, s, a, acc, ref);
    forall i: nat, j: nat | i <= j < |history| ensures Covered(first, s', acc', ref, history, i, j) {
      assert Covered(first, s, acc, ref, history, i, j);
      if Handled(first, s, acc, Commit(ref.repo, history[j])) {
        HandledStep(w, first, s, a, acc, ref, Commit(ref.repo, history[j]));
      }
    }
  }

  lemma NotHandledNotRun(first: State, s: State, acc: Account, c: Commit)
    requires s.pc.Marking? && !Handled(first, s, acc, c)
    ensures c != RunCommit(s.pc.run)
  {
  }

  lemma MarkElsewhere(s: State, acc: Account, ref: Ref)
    requires s.pc.Marking? && !OnBranch(s.pc.run, ref)
    ensures (ref in MarkStep(s).last <==> ref in s.last) && Noted(acc, s, Mark, ref).ofBranch == acc.ofBranch
    ensures ref in s.last ==> MarkStep(s).last[ref] == s.last[ref]
  {
    hide RunCommit;
  }

  lemma MarkHere(s: State, acc: Account, ref: Ref)
    requires s.pc.Marking? && OnBranch(s.pc.run, ref)
    ensures ref in MarkStep(s).last && MarkStep(s).last[ref] == s.pc.run.sha
    ensures Noted(acc, s, Mark, ref).ofBranch == acc.ofBranch + {RunCommit(s.pc.run)}
    ensures MarkStep(s).pc == Clearing(s.pc.run, if ref in s.last then Some(s.last[ref]) else None)
  {
    hide RunCommit;
  }

  /** A commit between two positions that is not the tested one is about to be marked skipped. */
  lemma MarkMovesHere(first: State, s: State, acc: Account, ref: Ref, history: seq<Sha>, i: nat, j: nat)
    requires Distinct(history) && s.pc.Marking? && i <= j < |history| && OnBranch(s.pc.run, ref)
    requires s.pc.run.sha in history
    requires ref !in s.last ==> ref !in first.last && acc.ofBranch == {}
    requires Commit(ref.repo, history[j]) != RunCommit(s.pc.run)
    requires !(Anchor(first, acc, ref, history[i]) && ref in s.last && j <= Pos(history, s.last[ref]))
    ensures var s', acc' := MarkStep(s), Noted(acc, s, Mark, ref);
            Anchor(first, acc', ref, history[i]) && ref in s'.last && j <= Pos(history, s'.last[ref]) ==>
              Upcoming(s', ref, history, j)
  {
    MarkHere(s, acc, ref);
    hide MarkStep, Noted;
    var run := s.pc.run;
    assert history[j] != run.sha && j != Pos(history, run.sha);
    assert history[i] == run.sha ==> i == Pos(history, run.sha);
    hide Pos, Distinct;
  }

  lemma MarkMoves(first: State, s: State, acc: Account, ref: Ref, history: seq<Sha>, i: nat, j: nat)
    requires Distinct(history) && OrderInv(s, ref, history) && s.pc.Marking? && i <= j < |history|
    requires ref !in s.last ==> ref !in first.last && acc.ofBranch == {}
    requires Commit(ref.repo, history[j]) != RunCommit(s.pc.run)
    requires !(Anchor(first, acc, ref, history[i]) && ref in s.last && j <= Pos(history, s.last[ref]))
    ensures var s', acc' := MarkStep(s), Noted(acc, s, Mark, ref);
            Anchor(first, acc', ref, history[i]) && ref in s'.last && j <= Pos(history, s'.last[ref]) ==>
              Upcoming(s', ref, history, j)
  {
    hide MarkStep, Noted, Pos;
    if OnBranch(s.pc.run, ref) {
      TestedOnHistory(s, ref, history);
      MarkMovesHere(first, s, acc, ref, history, i, j);
    } else {
      MarkElsewhere(s, acc, ref);
    }
    hide OrderInv, Upcoming, RunCommit;
  }

  lemma TestedOnHistory(s: State, ref: Ref, history: seq<Sha>)
    requires OrderInv(s, ref, history) && s.pc.Marking? && OnBranch(s.pc.run, ref)
    ensures s.pc.run.sha in history
  {
    hide Pos;
  }

  lemma CoverMarks(first: State, s: State, acc: Account, ref: Ref, history: seq<Sha>, i: nat, j: nat)
    requires Distinct(history) && OrderInv(s, ref, history) && CoverInv(first, s, acc, ref, history)
    requires s.pc.Marking? && i <= j < |history|
    ensures Covered(first, MarkStep(s), Noted(acc, s, Mark, ref), ref, history, i, j)
  {
    hide Handled, Accounted;
    var s', acc', run := MarkStep(s), Noted(acc, s, Mark, ref), s.pc.run;
    var c := Commit(ref.repo, history[j]);
    assert Covered(first, s, acc, ref, history, i, j);
    if Handled(first, s, acc, c) {
      HandledMarks(first, s, acc, ref, c);
      hide Pos, Noted, MarkStep, Anchor;
    } else {
      NotHandledNotRun(first, s, acc, c);
      hide Busy;
      MarkMoves(first, s, acc, ref, history, i, j);
    }
  }

  lemma CoverClears(w: World, first: State, s: State, skipped: seq<Sha>, acc: Account, ref: Ref, history: seq<Sha>,
                    i: nat, j: nat)
    requires w.markSkipped && s.pc.Clearing? && i <= j < |history|
    requires OrderInv(s, ref, history) && AppendOnly(s, Clear(skipped), ref, history)
    requires AccountInv(first, s, acc) && Covered(first, s, acc, ref, history, i, j)
    ensures Covered(first, ClearStep(w, s, skipped), acc, ref, history, i, j)
  {
    hide Handled, AccountInv, OrderInv, AfterBranch;
    var s', c := ClearStep(w, s, skipped), Commit(ref.repo, history[j]);
    assert s'.last == s.last;
    if Handled(first, s, acc, c) {
      ClearHandled(w, first, s, skipped, acc, c);
      hide Pos, ClearStep, Anchor;
    } else {
      if Upcoming(s, ref, history, j) { ClearUpcoming(w, s, skipped, ref, history, j); }
      hide Pos, ClearStep, Upcoming, Anchor;
    }
  }

  lemma ClearingOnHistory(s: State, ref: Ref, history: seq<Sha>)
    requires OrderInv(s, ref, history) && s.pc.Clearing? && OnBranch(s.pc.run, ref) && s.pc.prev.Some?
    ensures s.pc.prev.value in history && s.pc.run.sha in history
  {
    hide Pos, RunCommit;
  }

  lemma ClearUpcoming(w: World, s: State, skipped: seq<Sha>, ref: Ref, history: seq<Sha>, j: nat)
    requires w.markSkipped && s.pc.Clearing? && j < |history| && AppendOnly(s, Clear(skipped), ref, history)
    requires OrderInv(s, ref, history) && Upcoming(s, ref, history, j)
    ensures Upcoming(ClearStep(w, s, skipped), ref, history, j)
  {
    ClearingOnHistory(s, ref, history);
    hide OrderInv, AfterBranch;
    var base, head := Pos(history, s.pc.prev.value), Pos(history, s.pc.run.sha);
    assert Gap(history, base, head)[j - base - 1] == history[j];
    hide Pos;
  }

  lemma ClearHandled(w: World, first: State, s: State, skipped: seq<Sha>, acc: Account, c: Commit)
    requires s.pc.Clearing? && Handled(first, s, acc, c)
    ensures Handled(first, ClearStep(w, s, skipped), acc, c)
  {
  }

  lemma CoverSkips(first: State, s: State, acc: Account, ref: Ref, history: seq<Sha>, i: nat, j: nat)
    requires s.pc.Skipping? && s.pc.run.origin.FromBranch? && i <= j < |history|
    requires AccountInv(first, s, acc) && Covered(first, s, acc, ref, history, i, j)
    ensures Covered(first, SkipStep(s), acc, ref, history, i, j)
  {
    var s', c := SkipStep(s), Commit(ref.repo, history[j]);
    if Handled(first, s, acc, c) { SkipHandled(first, s, acc, c); }
    if Upcoming(s, ref, history, j) && s.pc.shas[0] == history[j] {
      assert Accounted(first, s', acc, c);
    }
    hide Pos, AfterBranch, AccountInv, Accounted;
  }

  lemma SkipHandled(first: State, s: State, acc: Account, c: Commit)
    requires s.pc.Skipping? && s.pc.run.origin.FromBranch? && Handled(first, s, acc, c)
    ensures Handled(first, SkipStep(s), acc, c)
  {
    hide G.WasSuperseded;
  }

  lemma MarkRecords(s: State, acc: Account, ref: Ref)
    requires s.pc.Marking? && (ref !in s.last ==> acc.ofBranch == {})
    ensures ref !in MarkStep(s).last ==> ref !in s.last && Noted(acc, s, Mark, ref).ofBranch == {}
  {
  }

  lemma LeavingKeepsLast(w: World, s: State, a: Action)
    requires Enabled(w, s, a) && (a.Clear? || a.Skip?)
    ensures Step(w, s, a).last == s.last
  {
    Store.LeavingKeepsLast(w, s, a);
  }

  lemma CoverStep(w: World, first: State, s: State, a: Action, acc: Account, ref: Ref, history: seq<Sha>)
    requires w.markSkipped && Distinct(history)
    requires AccountInv(first, s, acc) && OrderInv(s, ref, history) && CoverInv(first, s, acc, ref, history)
    requires Enabled(w, s, a) && AppendOnly(s, a, ref, history)
    ensures CoverInv(first, Step(w, s, a), Noted(acc, s, a, ref), ref, history)
  {
    hide Step, Enabled, AccountInv, Covered, OrderInv, MarkStep, ClearStep, SkipStep;
    if a.Mark? {
      UnfoldEnd(w, s, a);
      MarkRecords(s, acc, ref);
      forall i: nat, j: nat | i <= j < |history|
        ensures Covered(first, MarkStep(s), Noted(acc, s, Mark, ref), ref, history, i, j)
      {
        CoverMarks(first, s, acc, ref, history, i, j);
      }
    } else if a.Clear? || a.Skip? {
      UnfoldLeave(w, s, a);
      LeavingKeepsLast(w, s, a);
      forall i: nat, j: nat | i <= j < |history| ensures Covered(first, Step(w, s, a), acc, ref, history, i, j) {
        assert Covered(first, s, acc, ref, history, i, j);
        if a.Clear? {
          CoverClears(w, first, s, a.skipped, acc, ref, history, i, j);
        } else {
          CoverSkips(first, s, acc, ref, history, i, j);
        }
      }
    } else {
      CoverElsewhere(w, first, s, a, acc, ref, history);
    }
  }

  /** Where a process may start: its branches and its last tested commit are on the history. */
  ghost predicate OnHistory(first: State, ref: Ref, history: seq<Sha>) {
    && (BranchKey(ref) in first.heads ==> first.heads[BranchKey(ref)].sha in history)
    && (ref in first.last ==>
          && first.last[ref] in history && NotBeyondHead(first, ref, history, first.last[ref])
          && Commit(ref.repo, first.last[ref]) in first.seen)
  }

  lemma {:induction false} CoverRun(w: World, first: State, schedule: seq<Action>, ref: Ref, history: seq<Sha>)
    requires w.markSkipped && Distinct(history) && Starts(first) && OnHistory(first, ref, history)
    requires Exec(w, first, schedule).Some? && AppendOnlyRun(w, first, schedule, ref, history)
    ensures var s, acc := Exec(w, first, schedule).value, AccountOf(w, first, schedule, ref);
            AccountInv(first, s, acc) && OrderInv(s, ref, history) && CoverInv(first, s, acc, ref, history)
  {
    if schedule == [] {
      CoverStarts(first, ref, history);
    } else {
      var n := |schedule| - 1;
      var s, acc, a := Exec(w, first, schedule[..n]).value, AccountOf(w, first, schedule[..n], ref), schedule[n];
      CoverRun(w, first, schedule[..n], ref, history);
      hide AccountInv, OrderInv, CoverInv, Enabled, Step, AppendOnly;
      AccountStep(w, first, s, a, acc, ref);
      OrderStep(w, s, a, ref, history);
      CoverStep(w, first, s, a, acc, ref, history);
    }
  }

  lemma CoverStarts(first: State, ref: Ref, history: seq<Sha>)
    requires Distinct(history) && Starts(first) && OnHistory(first, ref, history)
    ensures var acc := Account({}, {}, {});
            AccountInv(first, first, acc) && OrderInv(first, ref, history) && CoverInv(first, first, acc, ref, history)
  {
    forall i: nat, j: nat | i <= j < |history| ensures Covered(first, first, Account({}, {}, {}), ref, history, i, j) {
      if ref in first.last { assert history[i] == first.last[ref] ==> i == Pos(history, first.last[ref]); }
    }
  }

  /** Skipped-commit coverage. Let a watched branch only ever move forward along a history,
      and let the engine do anything else in between: supersessions, races, pull request
      runs, other branches, pruning. Then between two refs every commit of the history from
      any tested commit of the branch to its last tested one has been tested, was processed
      before, carries an error rollup, or was a sampled tip that the clone raced past. */
  lemma EverySkippedCommitIsAccountedFor(w: World, first: State, schedule: seq<Action>, ref: Ref, history: seq<Sha>,
                                         i: nat, j: nat)
    requires w.markSkipped && Distinct(history) && Starts(first) && OnHistory(first, ref, history)
    requires Exec(w, first, schedule).Some? && AppendOnlyRun(w, first, schedule, ref, history)
    requires var s, acc := Exec(w, first, schedule).value, AccountOf(w, first, schedule, ref);
             && s.pc.Idle? && ref in s.last && i <= j < |history|
             && Anchor(first, acc, ref, history[i]) && j <= Pos(history, s.last[ref])
    ensures var s, acc := Exec(w, first, schedule).value, AccountOf(w, first, schedule, ref);
            s.last[ref] in history && Accounted(first, s, acc, Commit(ref.repo, history[j]))
  {
    CoverRun(w, first, schedule, ref, history);
    var s, acc := Exec(w, first, schedule).value, AccountOf(w, first, schedule, ref);
    assert Covered(first, s, acc, ref, history, i, j);
  }

  // ----- gaps that are too long -----

  function SetOf(shas: seq<Sha>): set<Sha> { set s | s in shas }

  lemma {:induction false} SetOfSize(shas: seq<Sha>)
    ensures |SetOf(shas)| <= |shas|
    ensures Distinct(shas) ==> |SetOf(shas)| == |shas|
  {
    if shas != [] {
      var n := |shas| - 1;
      SetOfSize(shas[..n]);
      assert SetOf(shas) == SetOf(shas[..n]) + {shas[n]};
    }
  }

  lemma SubsetSize<T>(a: set<T>, b: set<T>)
    requires a <= b
    ensures |a| <= |b|
  {
    assert b == a + (b - a);
  }

  /** A list shorter than a stretch of the history misses some commit of it. */
  lemma MissedCommit(history: seq<Sha>, base: nat, head: nat, listed: seq<Sha>) returns (j: nat)
    requires Distinct(history) && base < head < |history| && |listed| < head - base - 1
    ensures base < j < head && history[j] !in listed
  {
    var between := history[base + 1..head];
    assert Distinct(between) by {
      assert forall i | 0 <= i < |between| :: between[i] == history[base + 1 + i];
    }
    SetOfSize(between);
    SetOfSize(listed);
    if SetOf(between) <= SetOf(listed) { SubsetSize(SetOf(between), SetOf(listed)); }
    var s :| s in SetOf(between) && s !in SetOf(listed);
    var i :| 0 <= i < |between| && between[i] == s;
    j := base + 1 + i;
  }

  lemma AfterSkips(w: World, s: State, cleared: State, skipped: seq<Sha>)
    requires s.pc.Clearing? && cleared == ClearStep(w, s, skipped) && cleared.pc == Skipping(s.pc.run, skipped)
    requires s.pc.run.origin.FromBranch?
    ensures var repo := RefOf(s.pc.run.origin).repo;
            Exec(w, s, [Clear(skipped)] + Skips(|skipped|)) ==
            Some(cleared.(pc := Skipping(s.pc.run, []),
                          ledger := Explained(s.ledger, Overlooked(repo, s.pc.run.sha, cleared.seen, skipped))))
  {
    ClearIsEnabled(w, s, skipped);
    assert cleared.ledger == s.ledger;
    hide ClearStep, Step, Enabled, Explained, Overlooked;
    assert Exec(w, s, []) == Some(s) && [] + [Clear(skipped)] == [Clear(skipped)];
    hide Exec, Skips;
    Extend(w, s, [], Clear(skipped));
    SkipLoopIsMarkSkipped(w, cleared, |skipped|);
    ExecConcat(w, s, [Clear(skipped)], Skips(|skipped|));
    assert skipped[..|skipped|] == skipped && skipped[|skipped|..] == [];
  }

  lemma ClearIsEnabled(w: World, s: State, skipped: seq<Sha>)
    requires s.pc.Clearing?
    ensures Enabled(w, s, Clear(skipped)) && Step(w, s, Clear(skipped)) == ClearStep(w, s, skipped)
  {
    UnfoldLeave(w, s, Clear(skipped));
    hide Step;
  }

  /** Posting on listed commits accounts for no other. */
  lemma ListedOnly(first: State, s: State, s': State, acc: Account, c: Commit, skipped: seq<Sha>)
    requires s.pc.Clearing? && c.sha !in skipped && !Accounted(first, s, acc, c)
    requires exists repo, seen ::
               s'.ledger == Explained(s.ledger, Overlooked(repo, s.pc.run.sha, seen, skipped))
    ensures !Accounted(first, s', acc, c)
  {
  }

  /** The bound on gaps is needed. When more than 250 commits lie between two tested ones
      and none of them is accounted for, a compare list cut off at 250 leaves some of them
      that way after the whole skip loop has run. */
  lemma LongGapsLeaveHoles(w: World, first: State, s: State, acc: Account, ref: Ref, history: seq<Sha>,
                           skipped: seq<Sha>)
    returns (j: nat)
    requires Distinct(history) && w.markSkipped && s.pc.Clearing? && OnBranch(s.pc.run, ref)
    requires s.pc.prev.Some? && s.pc.prev.value in history && s.pc.run.sha in history
    requires Pos(history, s.pc.run.sha) - Pos(history, s.pc.prev.value) - 1 > 250 >= |skipped|
    requires forall k | Pos(history, s.pc.prev.value) < k < Pos(history, s.pc.run.sha) ::
               !Accounted(first, s, acc, Commit(ref.repo, history[k]))
    ensures Pos(history, s.pc.prev.value) < j < Pos(history, s.pc.run.sha)
    ensures var after := Exec(w, s, [Clear(skipped)] + Skips(|skipped|));
            && after.Some? && after.value.pc == Skipping(s.pc.run, []) && after.value.last == s.last
            && !Accounted(first, after.value, acc, Commit(ref.repo, history[j]))
  {
    var run := s.pc.run;
    j := MissedCommit(history, Pos(history, s.pc.prev.value), Pos(history, run.sha), skipped);
    assert s.pc.prev.value != run.sha;
    var cleared := ClearStep(w, s, skipped);
    assert cleared.pc == Skipping(run, skipped) && cleared.ledger == s.ledger && cleared.last == s.last;
    var c := Commit(ref.repo, history[j]);
    assert !Accounted(first, s, acc, c);
    hide Pos, Accounted, ClearStep;
    AfterSkips(w, s, cleared, skipped);
    ListedOnly(first, s, Exec(w, s, [Clear(skipped)] + Skips(|skipped|)).value, acc, c, skipped);
  }

  // ----- a run that leaves such a hole -----

  predicate Recordless(a: Action) { !a.Mark? && !a.SkipClone? }

  lemma {:induction false} AccountKept(w: World, first: State, a: seq<Action>, b: seq<Action>, ref: Ref)
    requires Exec(w, first, a + b).Some? && Exec(w, first, a).Some? && forall x | x in b :: Recordless(x)
    ensures AccountOf(w, first, a + b, ref) == AccountOf(w, first, a, ref)
  {
    hide Enabled, Step;
    if b == [] {
      assert a + b == a;
    } else {
      var n := |b| - 1;
      assert (a + b)[..|a + b| - 1] == a + b[..n] && (a + b)[|a + b| - 1] == b[n] && b[n] in b;
      assert forall x | x in b[..n] :: x in b;
      AccountKept(w, first, a, b[..n], ref);
    }
  }

  lemma AccountMarked(w: World, first: State, a: seq<Action>, ref: Ref)
    requires Exec(w, first, a).Some? && Exec(w, first, a + [Mark]).Some?
    ensures AccountOf(w, first, a + [Mark], ref) ==
            Noted(AccountOf(w, first, a, ref), Exec(w, first, a).value, Mark, ref)
  {
    assert (a + [Mark])[..|a|] == a;
    hide Noted, Enabled, Step;
  }

  lemma BootIsDone(w: World, r: State)
    requires r.pc == Boot({})
    ensures Enabled(w, r, BootDone) && Step(w, r, BootDone) == r.(pc := Idle, rest := [])
  {
    UnfoldBoot(w, r, BootDone);
    hide Step;
  }

  lemma SweepStarts(w: World, s: State, ref: Ref)
    requires s.pc.Idle? && s.rest == [] && !s.shutdown && w.refs == [ref]
    ensures var started := s.(rest := [ref]);
            && Enabled(w, s, StartSweep) && Step(w, s, StartSweep) == started
            && Enabled(w, started, NextRef)
            && Step(w, started, NextRef) ==
               s.(pc := Polling(Loop(ref, 1, Moves(s.heads, BranchKey(ref)))), rest := [])
  {
    UnfoldSweep(w, s, StartSweep);
    UnfoldSweep(w, s.(rest := [ref]), NextRef);
    assert [ref][1..] == [];
    hide Step;
  }

  lemma SweepBegins(w: World, r: State, ref: Ref)
    requires Starts(r) && w.refs == [ref] && r.inFlight == map[]
    ensures Exec(w, r, [BootDone] + [StartSweep] + [NextRef]) ==
            Some(r.(pc := Polling(Loop(ref, 1, Moves(r.heads, BranchKey(ref)))), rest := []))
  {
    assert Exec(w, r, []) == Some(r) && [] + [BootDone] == [BootDone] && r.pc == Boot({});
    hide Exec, Enabled, Step;
    var idle := r.(pc := Idle, rest := []);
    BootIsDone(w, r);
    Extend(w, r, [], BootDone);
    SweepStarts(w, idle, ref);
    Extend(w, r, [BootDone], StartSweep);
    Extend(w, r, [BootDone] + [StartSweep], NextRef);
  }

  /** The engine polls and clones the branch's tip. */
  lemma PolledAndCloned(w: World, s: State)
    requires s.pc.Polling? && BranchKey(s.pc.loop.ref) in s.heads
    requires Commit(s.pc.loop.ref.repo, s.heads[BranchKey(s.pc.loop.ref)].sha) !in s.seen
    ensures var head := s.heads[BranchKey(s.pc.loop.ref)];
            Exec(w, s, [LsRemote(true)] + [Clone(true)]) ==
            Some(s.(pc := Cloned(s.pc.loop, head.sha, head.sha, head.moves)))
  {
    var head := s.heads[BranchKey(s.pc.loop.ref)];
    assert Exec(w, s, []) == Some(s) && [] + [LsRemote(true)] == [LsRemote(true)];
    hide Exec;
    Extend(w, s, [], LsRemote(true));
    assert Exec(w, s, [LsRemote(true)]) == Some(s.(pc := Sampled(s.pc.loop, head.sha)));
    Extend(w, s, [LsRemote(true)], Clone(true));
  }

  /** A run of a commit without a configuration, marked: its rollup is an error. */
  ghost predicate MarkedRun(s: State, c: State) {
    && c.pc.Cloned? && s.pc.Marking? && !s.shutdown && !G.WasSuperseded(s.pc.run.gate)
    && s.pc.run.origin == FromBranch(c.pc.loop, c.pc.tip, c.pc.at) && s.pc.run.sha == c.pc.sha
    && s.seen == c.seen && s.last == c.last && s.heads == c.heads && s.rest == c.rest
    && s.ledger == c.ledger[RollupOf(Commit(c.pc.loop.ref.repo, c.pc.sha)) := Error]
  }

  lemma NothingToRead()
    ensures var gate := G.Step(None, G.Init(None), G.Read);
            && G.Init(None).log == [] && G.Init(None).pc.Starting? && G.Enabled(None, G.Init(None), G.Read)
            && gate.log == [G.Post(Rollup, Error)] && gate.pc == G.Done(false, true) && !G.WasSuperseded(gate)
  {
  }

  lemma UnconfiguredRun(w: World, c: State, o: Origin, sha: Sha)
    requires !c.shutdown && Commit(RefOf(o).repo, sha) !in w.files
    ensures var run := NewRun(w, c, o, sha, []);
            run.reading == None && run.gate == G.Init(None) && run.origin == o && run.sha == sha
  {
    hide G.Init;
  }

  /** The run begins and finds no configuration. */
  lemma ReadsNothing(w: World, c: State) returns (s: State)
    requires c.pc.Cloned? && !c.shutdown
    requires Commit(c.pc.loop.ref.repo, c.pc.sha) !in c.seen && Commit(c.pc.loop.ref.repo, c.pc.sha) !in w.files
    ensures Exec(w, c, [StartBranchRun([])] + [Gate(G.Read)]) == Some(s)
    ensures s.pc.Running? && s.pc.run.gate.pc == G.Done(false, true) && !G.WasSuperseded(s.pc.run.gate)
    ensures s.pc.run.origin == FromBranch(c.pc.loop, c.pc.tip, c.pc.at) && s.pc.run.sha == c.pc.sha
    ensures s == c.(pc := s.pc, inFlight := s.inFlight,
                    ledger := c.ledger[RollupOf(Commit(c.pc.loop.ref.repo, c.pc.sha)) := Error])
  {
    var o := FromBranch(c.pc.loop, c.pc.tip, c.pc.at);
    var run := NewRun(w, c, o, c.pc.sha, []);
    UnconfiguredRun(w, c, o, c.pc.sha);
    NothingToRead();
    assert Exec(w, c, []) == Some(c) && [] + [StartBranchRun([])] == [StartBranchRun([])];
    hide Exec, G.Init, G.Step, G.Enabled, NewRun, G.WasSuperseded;
    Extend(w, c, [], StartBranchRun([]));
    var begun := Begin(c, run);
    assert Exec(w, c, [StartBranchRun([])]) == Some(begun);
    Extend(w, c, [StartBranchRun([])], Gate(G.Read));
    s := WithGate(begun, G.Step(None, run.gate, G.Read));
  }

  lemma NoConfigurationRuns(w: World, c: State) returns (s: State)
    requires c.pc.Cloned? && !c.shutdown
    requires Commit(c.pc.loop.ref.repo, c.pc.sha) !in c.seen && Commit(c.pc.loop.ref.repo, c.pc.sha) !in w.files
    ensures Exec(w, c, [StartBranchRun([])] + [Gate(G.Read)] + [Judge]) == Some(s) && MarkedRun(s, c)
  {
    var read := ReadsNothing(w, c);
    hide Exec;
    JudgeIsEnabled(w, read);
    Extend(w, c, [StartBranchRun([])] + [Gate(G.Read)], Judge);
    hide Enabled, Step, RunCommit, G.WasSuperseded;
    s := JudgeStep(w, read);
  }

  lemma JudgeIsEnabled(w: World, s: State)
    requires s.pc.Running? && s.pc.run.gate.pc.Done?
    ensures Enabled(w, s, Judge) && Step(w, s, Judge) == JudgeStep(w, s)
  {
    UnfoldEnd(w, s, Judge);
    hide Step;
  }

  /** From the last skip mark on to the next sweep. */
  lemma BackToIdle(w: World, s: State)
    requires s.pc.Skipping? && s.pc.shas == [] && s.pc.run.origin.FromBranch? && !G.WasSuperseded(s.pc.run.gate)
    ensures Exec(w, s, [Skip] + [LeaveBranch] + [PullsDone]) == Some(s.(pc := Idle))
  {
    var run := s.pc.run;
    var returned := s.(pc := Returned(run.origin.loop, run.origin.tip));
    assert Exec(w, s, []) == Some(s) && [] + [Skip] == [Skip];
    hide Exec;
    SkipIsEnabled(w, s);
    Extend(w, s, [], Skip);
    assert SkipStep(s) == returned;
    hide SkipStep, G.WasSuperseded, Step, Enabled;
    LeavesBranch(w, returned);
    Extend(w, s, [Skip], LeaveBranch);
    Extend(w, s, [Skip] + [LeaveBranch], PullsDone);
  }

  lemma SkipIsEnabled(w: World, s: State)
    requires s.pc.Skipping? && s.pc.run.origin.FromBranch?
    ensures Enabled(w, s, Skip) && Step(w, s, Skip) == SkipStep(s)
  {
    UnfoldLeave(w, s, Skip);
    hide Step;
  }

  lemma LeavesBranch(w: World, s: State)
    requires s.pc.Returned?
    ensures var pulls := s.(pc := Pulls(s.pc.loop.ref));
            && Enabled(w, s, LeaveBranch) && Step(w, s, LeaveBranch) == pulls
            && Enabled(w, pulls, PullsDone) && Step(w, pulls, PullsDone) == s.(pc := Idle)
  {
    UnfoldSweep(w, s, LeaveBranch);
    UnfoldSweep(w, s.(pc := Pulls(s.pc.loop.ref)), PullsDone);
    hide Step;
  }

  lemma MarkIsEnabled(w: World, s: State)
    requires s.pc.Marking?
    ensures Enabled(w, s, Mark) && Step(w, s, Mark) == MarkStep(s)
  {
    UnfoldEnd(w, s, Mark);
    hide Step;
  }

  lemma AccountAfterMark(w: World, r: State, before: seq<Action>, ref: Ref, s: State)
    requires Exec(w, r, before) == Some(s) && s.pc.Marking? && forall a | a in before :: Recordless(a)
    requires OnBranch(s.pc.run, ref) && s.pc.run.origin.tip == s.pc.run.sha
    requires Exec(w, r, before + [Mark]).Some?
    ensures AccountOf(w, r, before + [Mark], ref) == Account({RunCommit(s.pc.run)}, {RunCommit(s.pc.run)}, {})
  {
    assert [] + before == before && Exec(w, r, []) == Some(r);
    assert AccountOf(w, r, [], ref) == Account({}, {}, {});
    AccountKept(w, r, [], before, ref);
    AccountMarked(w, r, before, ref);
    hide AccountOf, Exec;
  }

  /** Marking the run accounts for its own commit only. */
  lemma StillHoles(r: State, c: State, s: State, ref: Ref, history: seq<Sha>)
    requires Distinct(history) && MarkedRun(s, c) && OnBranch(s.pc.run, ref) && c.ledger == r.ledger
    requires s.pc.run.sha in history
    ensures var tested := {RunCommit(s.pc.run)};
            forall k: nat | k < |history| && k != Pos(history, s.pc.run.sha)
              && !Accounted(r, r, Account({}, {}, {}), Commit(ref.repo, history[k])) ::
              !Accounted(r, MarkStep(s), Account(tested, tested, {}), Commit(ref.repo, history[k]))
  {
    assert MarkStep(s).ledger == s.ledger;
    hide MarkStep, Pos;
  }

  /** Such a hole is reached from a start: a process that finds its branch more than 251
      commits past the last tested one, and whose compare list is cut off at 250, ends its
      sweep with a commit in between that nothing accounts for. */
  lemma LongGapRun(w: World, r: State, ref: Ref, history: seq<Sha>, skipped: seq<Sha>)
    returns (schedule: seq<Action>, j: nat)
    requires Starts(r) && Distinct(history) && w.refs == [ref] && w.markSkipped && r.inFlight == map[]
    requires ref in r.last && BranchKey(ref) in r.heads
    requires r.last[ref] in history && r.heads[BranchKey(ref)].sha in history
    requires Pos(history, r.heads[BranchKey(ref)].sha) - Pos(history, r.last[ref]) - 1 > 250 >= |skipped|
    requires var c := Commit(ref.repo, r.heads[BranchKey(ref)].sha); c !in r.seen && c !in w.files
    requires forall k | Pos(history, r.last[ref]) < k < Pos(history, r.heads[BranchKey(ref)].sha) ::
               !Accounted(r, r, Account({}, {}, {}), Commit(ref.repo, history[k]))
    ensures Exec(w, r, schedule).Some? && Clear(skipped) in schedule
    ensures var s, acc := Exec(w, r, schedule).value, AccountOf(w, r, schedule, ref);
            && s.pc.Idle? && ref in s.last && s.last[ref] == r.heads[BranchKey(ref)].sha
            && Pos(history, r.last[ref]) < j < Pos(history, s.last[ref])
            && !Accounted(r, s, acc, Commit(ref.repo, history[j]))
  {
    hide Exec, AccountOf, Accounted, MarkedRun, Pos;
    var a3, a2 := [BootDone] + [StartSweep] + [NextRef], [LsRemote(true)] + [Clone(true)];
    var b3 := [StartBranchRun([])] + [Gate(G.Read)] + [Judge];
    SweepBegins(w, r, ref);
    var polling := Exec(w, r, a3).value;
    PolledAndCloned(w, polling);
    ExecConcat(w, r, a3, a2);
    var c := Exec(w, polling, a2).value;
    var marked := NoConfigurationRuns(w, c);
    ExecConcat(w, r, a3 + a2, b3);
    assert forall a | a in a3 + a2 + b3 :: Recordless(a);
    j := HoleAfterRun(w, r, a3 + a2 + b3, c, marked, ref, history, skipped);
    schedule := a3 + a2 + b3 + [Mark] +
                (([Clear(skipped)] + Skips(|skipped|)) + ([Skip] + [LeaveBranch] + [PullsDone]));
    assert Clear(skipped) in [Clear(skipped)] + Skips(|skipped|);
  }

  /** The run is marked, the list is worked off, and the sweep goes on to its end. */
  lemma HoleAfterMark(w: World, r: State, before: seq<Action>, clearing: State, ref: Ref, history: seq<Sha>,
                      skipped: seq<Sha>) returns (j: nat)
    requires Distinct(history) && w.markSkipped && Exec(w, r, before) == Some(clearing)
    requires clearing.pc.Clearing? && OnBranch(clearing.pc.run, ref) && !G.WasSuperseded(clearing.pc.run.gate)
    requires clearing.pc.prev.Some? && clearing.pc.prev.value in history && clearing.pc.run.sha in history
    requires Pos(history, clearing.pc.run.sha) - Pos(history, clearing.pc.prev.value) - 1 > 250 >= |skipped|
    requires forall k | Pos(history, clearing.pc.prev.value) < k < Pos(history, clearing.pc.run.sha) ::
               !Accounted(r, clearing, AccountOf(w, r, before, ref), Commit(ref.repo, history[k]))
    ensures Pos(history, clearing.pc.prev.value) < j < Pos(history, clearing.pc.run.sha)
    ensures var schedule := before + (([Clear(skipped)] + Skips(|skipped|)) + ([Skip] + [LeaveBranch] + [PullsDone]));
            && Exec(w, r, schedule).Some?
            && var s := Exec(w, r, schedule).value;
               && s.pc.Idle? && s.last == clearing.last
               && !Accounted(r, s, AccountOf(w, r, schedule, ref), Commit(ref.repo, history[j]))
  {
    hide Exec, Accounted, AccountOf, Pos, Recordless;
    var acc := AccountOf(w, r, before, ref);
    var d, e := [Clear(skipped)] + Skips(|skipped|), [Skip] + [LeaveBranch] + [PullsDone];
    j := LongGapsLeaveHoles(w, r, clearing, acc, ref, history, skipped);
    var listed := Exec(w, clearing, d).value;
    BackToIdle(w, listed);
    ExecConcat(w, clearing, d, e);
    ExecConcat(w, r, before, d + e);
    NoRecords(skipped);
    AccountKept(w, r, before, d + e, ref);
    SameAccount(r, listed, Exec(w, clearing, d + e).value, acc, Commit(ref.repo, history[j]));
  }

  lemma NoRecords(skipped: seq<Sha>)
    ensures forall a | a in ([Clear(skipped)] + Skips(|skipped|)) + ([Skip] + [LeaveBranch] + [PullsDone]) ::
              Recordless(a)
  {
  }

  lemma MarkedClearing(c: State, s: State, ref: Ref)
    requires MarkedRun(s, c) && c.pc.loop.ref == ref && ref in c.last && c.pc.tip == c.pc.sha
    ensures OnBranch(s.pc.run, ref) && s.pc.run.sha == c.pc.sha && s.pc.run.origin.tip == s.pc.run.sha
    ensures !G.WasSuperseded(s.pc.run.gate)
    ensures var clearing := MarkStep(s);
            && clearing.pc == Clearing(s.pc.run, Some(c.last[ref]))
            && ref in clearing.last && clearing.last[ref] == c.pc.sha
  {
    hide RunCommit, G.WasSuperseded;
  }

  /** The rest of the sweep, once the run is about to be marked. */
  lemma HoleAfterRun(w: World, r: State, before: seq<Action>, c: State, marked: State, ref: Ref, history: seq<Sha>,
                     skipped: seq<Sha>) returns (j: nat)
    requires Distinct(history) && w.markSkipped && Exec(w, r, before) == Some(marked) && MarkedRun(marked, c)
    requires forall a | a in before :: Recordless(a)
    requires ref in r.last && r.last[ref] in history && c.pc.sha in history && c.pc.tip == c.pc.sha
    requires c.pc.loop.ref == ref && c.ledger == r.ledger && c.last == r.last
    requires Pos(history, c.pc.sha) - Pos(history, r.last[ref]) - 1 > 250 >= |skipped|
    requires forall k | Pos(history, r.last[ref]) < k < Pos(history, c.pc.sha) ::
               !Accounted(r, r, Account({}, {}, {}), Commit(ref.repo, history[k]))
    ensures Pos(history, r.last[ref]) < j < Pos(history, c.pc.sha)
    ensures var schedule := before + [Mark] + (([Clear(skipped)] + Skips(|skipped|))
                                               + ([Skip] + [LeaveBranch] + [PullsDone]));
            && Exec(w, r, schedule).Some?
            && var s := Exec(w, r, schedule).value;
               && s.pc.Idle? && ref in s.last && s.last[ref] == c.pc.sha
               && !Accounted(r, s, AccountOf(w, r, schedule, ref), Commit(ref.repo, history[j]))
  {
    hide Exec, Accounted, AccountOf, Pos, Recordless, Distinct;
    var clearing, run := MarkStep(marked), marked.pc.run;
    MarkIsEnabled(w, marked);
    Extend(w, r, before, Mark);
    MarkedClearing(c, marked, ref);
    AccountAfterMark(w, r, before, ref, marked);
    StillHoles(r, c, marked, ref, history);
    hide MarkStep, MarkedRun, RunCommit, G.WasSuperseded, Step, Enabled;
    j := HoleAfterMark(w, r, before + [Mark], clearing, ref, history, skipped);
  }

  lemma SameAccount(first: State, s: State, s': State, acc: Account, c: Commit)
    requires s'.ledger == s.ledger
    ensures Accounted(first, s', acc, c) == Accounted(first, s, acc, c)
  {
  }
}
