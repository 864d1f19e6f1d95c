/** `Runner.reconcileInFlight`: the loop over the in-flight markers that a previous
    process left behind, against the store and the status ledger. */
module Reconcile {
  import opened Common
  import opened Lifecycle
  import opened Keys
  import StateFile
  import G = Gate

  /** What ls-remote and the status API answer. `heads` has every ref that ls-remote
      succeeds for; `unlisted` are the commits whose statuses cannot be listed. */
  datatype Answers = Answers(heads: map<Ref, Sha>, unlisted: set<Commit>)

  /** What becomes of one marker. */
  datatype Fate =
    | Dropped               // its ref is no longer watched
    | LeftToPoll            // still the tip: the next poll re-runs it
    | Kept                  // its statuses could not be listed; retried at the next start
    | Resolved(c: Commit)   // whatever is pending on it becomes an error

  function FirstMatch(refs: seq<Ref>, k: string): Option<Ref> {
    if refs == [] then None else if Matches(refs[0], k) then Some(refs[0]) else FirstMatch(refs[1..], k)
  }

  function FateOf(refs: seq<Ref>, a: Answers, k: string, sha: string): Fate {
    var found := FirstMatch(refs, k);
    if found.None? then Dropped
    else
      var ref, c := found.value, Commit(found.value.repo, Sha(sha));
      if k == RefName(ref) && ref in a.heads && a.heads[ref] == Sha(sha) then LeftToPoll
      else if c in a.unlisted then Kept
      else Resolved(c)
  }

  lemma {:induction false} FirstMatchExact(refs: seq<Ref>, k: string)
    ensures FirstMatch(refs, k).None? <==> forall i | 0 <= i < |refs| :: !Matches(refs[i], k)
    ensures forall i | 0 <= i < |refs| && Matches(refs[i], k) && (forall j | 0 <= j < i :: !Matches(refs[j], k)) ::
              FirstMatch(refs, k) == Some(refs[i])
  {
    hide Matches;
    if refs != [] {
      FirstMatchExact(refs[1..], k);
      assert forall i | 0 < i < |refs| :: refs[i] == refs[1..][i - 1];
    }
  }

  /** The ledger once everything pending on these commits has become an error. */
  function Settled(l: Ledger, cs: set<Commit>): Ledger {
    map p | p in l :: if p.commit in cs && l[p] == Pending then Error else l[p]
  }

  class Remote {
    var ledger: Ledger

    /** ListStatuses: the latest status of every context of a commit. */
    method List(c: Commit) returns (all: seq<G.Post>)
      ensures forall e :: e in all <==> Place(c, e.context) in ledger && ledger[Place(c, e.context)] == e.status
    {
      all := [];
      var todo := ledger.Keys;
      while todo != {}
        invariant todo <= ledger.Keys
        invariant forall e :: e in all <==> Place(c, e.context) in ledger && Place(c, e.context) !in todo
                                            && ledger[Place(c, e.context)] == e.status
        decreases |todo|
      {
        var p :| p in todo;
        if p.commit == c { all := all + [G.Post(p.context, ledger[p])]; }
        todo := todo - {p};
      }
    }

    method SetStatus(c: Commit, context: Context, status: Status)
      modifies this
      ensures ledger == old(ledger)[Place(c, context) := status]
    {
      ledger := ledger[Place(c, context) := status];
    }

    /** The loop that terminalizes one commit's pending contexts: each of them becomes an
        error, and every other status stays what it was. */
    method ResolvePending(c: Commit)
      modifies this
      ensures ledger.Keys == old(ledger).Keys
      ensures forall p | p in ledger && p.commit == c && old(ledger)[p] == Pending :: ledger[p] == Error
      ensures forall p | p in ledger && !(p.commit == c && old(ledger)[p] == Pending) :: ledger[p] == old(ledger)[p]
    {
      var statuses := List(c);
      for i := 0 to |statuses|
        invariant ledger.Keys == old(ledger).Keys
        invariant forall p | p in ledger ::
                    ledger[p] ==
                    if p.commit == c && old(ledger)[p] == Pending && G.Post(p.context, Pending) in statuses[..i]
                    then Error else old(ledger)[p]
      {
        var st := statuses[i];
        assert st in statuses && statuses[..i + 1] == statuses[..i] + [st];
        if st.status == Pending { SetStatus(c, st.context, Error); }
      }
      assert statuses[..|statuses|] == statuses;
    }
  }

  /** Markers with one of the fates resolved name these commits. */
  ghost function ResolvedCommits(refs: seq<Ref>, a: Answers, markers: map<string, string>, keys: set<string>):
    set<Commit>
  {
    set k | k in keys && k in markers && FateOf(refs, a, k, markers[k]).Resolved? :: FateOf(refs, a, k, markers[k]).c
  }

  /** The markers not yet looked at, and those that are kept. */
  ghost function Unresolved(refs: seq<Ref>, a: Answers, markers: map<string, string>, todo: set<string>):
    map<string, string>
  {
    map k | k in markers && (k in todo || FateOf(refs, a, k, markers[k]).Kept?) :: markers[k]
  }

  lemma AllUnresolved(refs: seq<Ref>, a: Answers, markers: map<string, string>)
    ensures Unresolved(refs, a, markers, markers.Keys) == markers
  {
  }

  lemma NothingResolved(refs: seq<Ref>, a: Answers, markers: map<string, string>)
    ensures ResolvedCommits(refs, a, markers, {}) == {}
  {
  }

  lemma OneMoreLookedAt(refs: seq<Ref>, a: Answers, markers: map<string, string>, todo: set<string>, k: string)
    requires k in todo && k in markers
    ensures var rest, fate := Unresolved(refs, a, markers, todo), FateOf(refs, a, k, markers[k]);
            Unresolved(refs, a, markers, todo - {k}) == if fate.Kept? then rest else rest - {k}
  {
    hide FateOf;
  }

  /** The loop over the markers, in any order; after `turns` of them the context is found
      cancelled. The markers left are those whose turn did not come and those whose
      statuses could not be listed, and exactly the commits of the resolved ones have had
      their pending contexts closed. */
  method ReconcileInFlight(refs: seq<Ref>, a: Answers, store: StateFile.Store, remote: Remote, clock: int, turns: nat)
    returns (ghost done: set<string>)
    modifies store, remote
    ensures done <= old(store.inFlight).Keys && |done| == Min(turns, |old(store.inFlight).Keys|)
    ensures forall k :: k in store.inFlight <==>
                        && k in old(store.inFlight)
                        && (k !in done || IsKept(refs, a, k, old(store.inFlight)[k]))
    ensures forall k | k in store.inFlight :: store.inFlight[k] == old(store.inFlight)[k]
    ensures store.last == old(store.last) && store.seen.Keys <= old(store.seen).Keys
    ensures remote.ledger.Keys == old(remote.ledger).Keys
    ensures forall p | p in remote.ledger ::
              remote.ledger[p] ==
              if old(remote.ledger)[p] == Pending
                 && exists k :: k in done && IsResolved(refs, a, k, old(store.inFlight)[k], p.commit)
              then Error else old(remote.ledger)[p]
  {
    hide FateOf, Settled, Unresolved, ResolvedCommits, IsResolved, IsKept;
    var snapshot := store.inFlight;
    var todo, turn := snapshot.Keys, 0;
    done := {};
    AllUnresolved(refs, a, snapshot);
    SettledNothing(remote.ledger);
    NothingResolved(refs, a, snapshot);
    while todo != {}
      invariant todo !! done && todo + done == snapshot.Keys && |done| == turn <= turns
      invariant store.inFlight == Unresolved(refs, a, snapshot, todo)
      invariant store.last == old(store.last) && store.seen.Keys <= old(store.seen).Keys
      invariant remote.ledger == Settled(old(remote.ledger), ResolvedCommits(refs, a, snapshot, done))
      decreases |todo|
    {
      SizeOfPart(snapshot.Keys, done, todo);
      if turn == turns { break; }
      var k :| k in todo;
      var sha := snapshot[k];
      var fate := ReconcileOne(refs, a, store, remote, k, sha, clock);
      OneTurn(refs, a, snapshot, old(remote.ledger), todo, done, k);
      todo, done, turn := todo - {k}, done + {k}, turn + 1;
    }
    SizeOfPart(snapshot.Keys, done, todo);
    assert todo == snapshot.Keys - done;
    SettledExactly(old(remote.ledger), ResolvedCommits(refs, a, snapshot, done));
    forall c ensures c in ResolvedCommits(refs, a, snapshot, done) <==>
                     exists k :: k in done && IsResolved(refs, a, k, snapshot[k], c)
    {
      ResolvedExactly(refs, a, snapshot, done, c);
    }
    UnresolvedExactly(refs, a, snapshot, todo);
  }

  lemma UnresolvedExactly(refs: seq<Ref>, a: Answers, markers: map<string, string>, todo: set<string>)
    ensures forall k :: k in Unresolved(refs, a, markers, todo) <==>
                        k in markers && (k in todo || IsKept(refs, a, k, markers[k]))
    ensures forall k | k in Unresolved(refs, a, markers, todo) :: Unresolved(refs, a, markers, todo)[k] == markers[k]
  {
    forall k | k in markers ensures FateOf(refs, a, k, markers[k]).Kept? <==> IsKept(refs, a, k, markers[k]) {
      FateExactly(refs, a, k, markers[k], Commit(Repo("", ""), Sha("")));
    }
    hide FateOf, IsKept;
  }

  /** The marker names this commit of the repository of the first watched ref that its key
      matches; it is not that branch's own marker at its current tip; and the commit's
      statuses can be listed. */
  ghost predicate IsResolved(refs: seq<Ref>, a: Answers, k: string, sha: string, c: Commit) {
    exists i :: 0 <= i < |refs| && Matches(refs[i], k) && (forall j | 0 <= j < i :: !Matches(refs[j], k))
                && c == Commit(refs[i].repo, Sha(sha)) && c !in a.unlisted
                && !(k == RefName(refs[i]) && refs[i] in a.heads && a.heads[refs[i]] == Sha(sha))
  }

  /** The same, but the commit's statuses cannot be listed. */
  ghost predicate IsKept(refs: seq<Ref>, a: Answers, k: string, sha: string) {
    exists i :: 0 <= i < |refs| && Matches(refs[i], k) && (forall j | 0 <= j < i :: !Matches(refs[j], k))
                && Commit(refs[i].repo, Sha(sha)) in a.unlisted
                && !(k == RefName(refs[i]) && refs[i] in a.heads && a.heads[refs[i]] == Sha(sha))
  }

  lemma FirstIsUnique(refs: seq<Ref>, k: string, i: nat, j: nat)
    requires i < |refs| && Matches(refs[i], k) && forall m | 0 <= m < i :: !Matches(refs[m], k)
    requires j < |refs| && Matches(refs[j], k) && forall m | 0 <= m < j :: !Matches(refs[m], k)
    ensures i == j
  {
  }

  lemma {:induction false} FirstMatchAt(refs: seq<Ref>, k: string)
    requires FirstMatch(refs, k).Some?
    ensures exists i :: 0 <= i < |refs| && Matches(refs[i], k) && (forall j | 0 <= j < i :: !Matches(refs[j], k))
                        && refs[i] == FirstMatch(refs, k).value
  {
    hide Matches;
    if !Matches(refs[0], k) {
      FirstMatchAt(refs[1..], k);
      var i :| 0 <= i < |refs[1..]| && Matches(refs[1..][i], k)
               && (forall j | 0 <= j < i :: !Matches(refs[1..][j], k))
               && refs[1..][i] == FirstMatch(refs[1..], k).value;
      assert refs[i + 1] == refs[1..][i];
      assert forall j | 0 < j < i + 1 :: refs[j] == refs[1..][j - 1];
    } else {
      assert refs[0] == FirstMatch(refs, k).value;
    }
  }

  /** The decision on one marker, in the terms of its key and the answers. */
  lemma FateExactly(refs: seq<Ref>, a: Answers, k: string, sha: string, c: Commit)
    ensures FateOf(refs, a, k, sha) == Resolved(c) <==> IsResolved(refs, a, k, sha, c)
    ensures FateOf(refs, a, k, sha).Dropped? <==> forall i | 0 <= i < |refs| :: !Matches(refs[i], k)
    ensures FateOf(refs, a, k, sha).LeftToPoll? ==>
              exists i :: 0 <= i < |refs| && k == RefName(refs[i]) && refs[i] in a.heads && a.heads[refs[i]] == Sha(sha)
    ensures FateOf(refs, a, k, sha).Kept? <==> IsKept(refs, a, k, sha)
  {
    hide Matches, RefName, FirstMatch, IsResolved, IsKept;
    FirstMatchExact(refs, k);
    if FirstMatch(refs, k).Some? {
      FirstMatchAt(refs, k);
      var i :| 0 <= i < |refs| && Matches(refs[i], k) && (forall j | 0 <= j < i :: !Matches(refs[j], k))
               && refs[i] == FirstMatch(refs, k).value;
      DecidedAtFirst(refs, a, k, sha, c, i);
    } else {
      NothingMatches(refs, a, k, sha, c);
    }
  }

  lemma NothingMatches(refs: seq<Ref>, a: Answers, k: string, sha: string, c: Commit)
    requires forall i | 0 <= i < |refs| :: !Matches(refs[i], k)
    ensures !IsResolved(refs, a, k, sha, c) && !IsKept(refs, a, k, sha)
  {
  }

  lemma DecidedAtFirst(refs: seq<Ref>, a: Answers, k: string, sha: string, c: Commit, i: nat)
    requires i < |refs| && Matches(refs[i], k) && forall m | 0 <= m < i :: !Matches(refs[m], k)
    ensures var own := k == RefName(refs[i]) && refs[i] in a.heads && a.heads[refs[i]] == Sha(sha);
            && (IsResolved(refs, a, k, sha, c) <==>
                  !own && c == Commit(refs[i].repo, Sha(sha)) && c !in a.unlisted)
            && (IsKept(refs, a, k, sha) <==> !own && Commit(refs[i].repo, Sha(sha)) in a.unlisted)
  {
    hide Matches, RefName;
    forall j: nat | j < |refs| && Matches(refs[j], k) && (forall m | 0 <= m < j :: !Matches(refs[m], k))
      ensures i == j
    {
      FirstIsUnique(refs, k, i, j);
    }
  }

  lemma ResolvedExactly(refs: seq<Ref>, a: Answers, markers: map<string, string>, keys: set<string>, c: Commit)
    requires keys <= markers.Keys
    ensures c in ResolvedCommits(refs, a, markers, keys) <==>
            exists k :: k in keys && IsResolved(refs, a, k, markers[k], c)
  {
    forall k | k in keys
      ensures IsResolved(refs, a, k, markers[k], c) <==>
              FateOf(refs, a, k, markers[k]).Resolved? && FateOf(refs, a, k, markers[k]).c == c
    {
      FateExactly(refs, a, k, markers[k], c);
    }
    hide FateOf, IsResolved;
  }

  /** The ledger, status by status. */
  lemma SettledExactly(l: Ledger, cs: set<Commit>)
    ensures Settled(l, cs).Keys == l.Keys
    ensures forall p | p in l ::
              Settled(l, cs)[p] == if p.commit in cs && l[p] == Pending then Error else l[p]
  {
  }

  /** What one turn does to the markers and to the ledger. */
  lemma OneTurn(refs: seq<Ref>, a: Answers, markers: map<string, string>, l: Ledger, todo: set<string>,
                done: set<string>, k: string)
    requires k in todo && k in markers
    ensures var rest, fate := Unresolved(refs, a, markers, todo), FateOf(refs, a, k, markers[k]);
            Unresolved(refs, a, markers, todo - {k}) == if fate.Kept? then rest else rest - {k}
    ensures var before, fate := Settled(l, ResolvedCommits(refs, a, markers, done)), FateOf(refs, a, k, markers[k]);
            Settled(l, ResolvedCommits(refs, a, markers, done + {k})) ==
            if fate.Resolved? then Settled(before, {fate.c}) else before
  {
    hide FateOf, Settled, Unresolved, ResolvedCommits;
    var fate, before := FateOf(refs, a, k, markers[k]), ResolvedCommits(refs, a, markers, done);
    OneMoreLookedAt(refs, a, markers, todo, k);
    OneMoreResolved(refs, a, markers, done, k);
    if fate.Resolved? { SettledTwice(l, before, {fate.c}); }
    assert before + {} == before;
  }

  lemma SizeOfPart(all: set<string>, a: set<string>, b: set<string>)
    requires a !! b && a + b == all
    ensures |all| == |a| + |b|
  {
  }

  lemma OneMoreResolved(refs: seq<Ref>, a: Answers, markers: map<string, string>, done: set<string>, k: string)
    requires k in markers
    ensures var fate := FateOf(refs, a, k, markers[k]);
            ResolvedCommits(refs, a, markers, done + {k}) ==
            ResolvedCommits(refs, a, markers, done) + if fate.Resolved? then {fate.c} else {}
  {
    hide FateOf;
  }

  lemma SettledNothing(l: Ledger)
    ensures Settled(l, {}) == l
  {
  }

  lemma SettledTwice(l: Ledger, a: set<Commit>, b: set<Commit>)
    ensures Settled(Settled(l, a), b) == Settled(l, a + b)
  {
  }

  /** One turn of the loop. */
  method ReconcileOne(refs: seq<Ref>, a: Answers, store: StateFile.Store, remote: Remote, k: string, sha: string,
                      clock: int)
    returns (ghost fate: Fate)
    modifies store, remote
    ensures fate == FateOf(refs, a, k, sha)
    ensures store.inFlight == if fate.Kept? then old(store.inFlight) else old(store.inFlight) - {k}
    ensures store.last == old(store.last) && store.seen.Keys <= old(store.seen).Keys
    ensures remote.ledger == if fate.Resolved? then Settled(old(remote.ledger), {fate.c}) else old(remote.ledger)
  {
    fate := FateOf(refs, a, k, sha);
    FirstMatchExact(refs, k);
    var found := RefForKey(refs, k);
    assert found == FirstMatch(refs, k);
    if found.None? {
      var _ := store.ClearInFlight(k, clock, true);
      return;
    }
    var ref := found.value;
    if k == RefName(ref) && ref in a.heads && a.heads[ref] == Sha(sha) {
      var _ := store.ClearInFlight(k, clock, true);
      return;
    }
    var c := Commit(ref.repo, Sha(sha));
    if c in a.unlisted { return; }
    remote.ResolvePending(c);
    assert remote.ledger == Settled(old(remote.ledger), {c});
    var _ := store.ClearInFlight(k, clock, true);
  }

  /** The ref found for a key is the run's branch, or a watched branch of its repository. */
  lemma FoundIsItsRef(refs: seq<Ref>, k: Key, found: Ref)
    requires FirstMatch(refs, KeyName(k)) == Some(found) && Parsed(KeyRepo(k))
    requires forall i | 0 <= i < |refs| :: Parsed(refs[i].repo) && Apart(refs[i].repo, KeyRepo(k))
    ensures found.repo == KeyRepo(k)
    ensures KeyName(k) == RefName(found) <==> k == BranchKey(found)
    ensures k.BranchKey? ==> k == BranchKey(found)
  {
    hide Matches, KeyName, RefName;
    FirstMatchIsWatched(refs, KeyName(k));
    var i :| 0 <= i < |refs| && refs[i] == found && Matches(refs[i], KeyName(k));
    MatchesExactly(refs[i], k);
    assert AtApart(found.repo, KeyRepo(k));
    IsBranchKey(found, k);
    hide Apart, Parsed;
  }

  /** The fate of a key's marker, given what its ref is. */
  lemma FateOfKey(w: World, s: State, a: Answers, k: Key)
    requires k in s.inFlight && Parsed(KeyRepo(k))
    requires forall i | 0 <= i < |w.refs| :: Parsed(w.refs[i].repo) && Apart(w.refs[i].repo, KeyRepo(k))
    ensures var c := Commit(KeyRepo(k), s.inFlight[k]);
            FateOf(w.refs, a, KeyName(k), s.inFlight[k].hex) ==
            if !Watched(w, k) then Dropped
            else if k.BranchKey? && k.ref in a.heads && a.heads[k.ref] == s.inFlight[k] then LeftToPoll
            else if c in a.unlisted then Kept else Resolved(c)
  {
    hide Matches, KeyName, RefName, Apart, Parsed, FirstMatch;
    FirstMatchExact(w.refs, KeyName(k));
    ResolvesExactlyWatched(w, k);
    var found := FirstMatch(w.refs, KeyName(k));
    if found.Some? { FoundIsItsRef(w.refs, k, found.value); }
    assert Sha(s.inFlight[k].hex) == s.inFlight[k];
    hide Watched;
  }

  /** The loop's decision for a marker is the engine's: on the key's string, with the
      same answers, it clears, keeps or resolves exactly when the engine's step does. */
  lemma FateIsTheEngineStep(w: World, s: State, a: Answers, k: Key, lsOk: bool, listed: Option<seq<Context>>)
    requires Enabled(w, s, Action.Reconcile(k, lsOk, listed))
    requires Parsed(KeyRepo(k))
    requires forall i | 0 <= i < |w.refs| :: Parsed(w.refs[i].repo) && Apart(w.refs[i].repo, KeyRepo(k))
    requires k.BranchKey? ==>
               (k.ref in a.heads <==> lsOk) && (lsOk ==> a.heads[k.ref] == s.heads[k].sha)
    requires listed.None? <==> Commit(KeyRepo(k), s.inFlight[k]) in a.unlisted
    ensures var fate, s' := FateOf(w.refs, a, KeyName(k), s.inFlight[k].hex), ReconcileStep(w, s, k, lsOk, listed);
            && (fate.Dropped? || fate.LeftToPoll? <==> s'.pc.Boot? && k !in s'.inFlight)
            && (fate.Kept? <==> s'.pc.Boot? && k in s'.inFlight)
            && (fate.Resolved? <==> s'.pc.Resolving?)
            && (fate.Resolved? ==> fate.c == Commit(KeyRepo(k), s.inFlight[k]))
  {
    hide Enabled, Step, Apart, Parsed, FateOf, Watched, Open, KeyName;
    UnfoldBoot(w, s, Action.Reconcile(k, lsOk, listed));
    FateOfKey(w, s, a, k);
  }

  // ----- the engine's resolving steps are that loop -----

  function Resolves(n: nat): seq<Action> { seq(n, _ => Resolve) }

  /** The ledger once these contexts of the commit read error. */
  function Erred(l: Ledger, c: Commit, contexts: seq<Context>): Ledger {
    if contexts == [] then l else
      Erred(l, c, contexts[..|contexts| - 1])[Place(c, contexts[|contexts| - 1]) := Error]
  }

  lemma OneMoreErred(l: Ledger, c: Commit, contexts: seq<Context>, context: Context)
    ensures Erred(l, c, contexts + [context]) == Erred(l, c, contexts)[Place(c, context) := Error]
    ensures Erred(l, c, []) == l
  {
    assert (contexts + [context])[..|contexts|] == contexts;
  }

  lemma {:induction false} ErredExactly(l: Ledger, c: Commit, contexts: seq<Context>, p: Place)
    ensures p in Erred(l, c, contexts) <==> p in l || (p.commit == c && p.context in contexts)
    ensures p in Erred(l, c, contexts) ==>
              Erred(l, c, contexts)[p] == if p.commit == c && p.context in contexts then Error else l[p]
  {
    if contexts != [] {
      var n := |contexts| - 1;
      ErredExactly(l, c, contexts[..n], p);
      assert contexts == contexts[..n] + [contexts[n]];
    }
  }

  lemma OneResolve(w: World, s: State)
    requires s.pc.Resolving? && s.pc.key in s.inFlight
    ensures Enabled(w, s, Resolve)
    ensures var k, cs := s.pc.key, s.pc.contexts;
            Step(w, s, Resolve) ==
            if cs == [] then s.(inFlight := s.inFlight - {k}, pc := Boot(s.pc.todo))
            else s.(ledger := s.ledger[Place(Commit(KeyRepo(k), s.inFlight[k]), cs[0]) := Error],
                    pc := Resolving(k, cs[1..], s.pc.todo))
  {
    UnfoldBoot(w, s, Resolve);
    hide Step;
  }

  lemma {:induction false} ResolvesSome(w: World, s: State, n: nat)
    requires s.pc.Resolving? && s.pc.key in s.inFlight && n <= |s.pc.contexts|
    ensures var k, cs := s.pc.key, s.pc.contexts;
            Exec(w, s, Resolves(n)) ==
            Some(s.(pc := Resolving(k, cs[n..], s.pc.todo),
                    ledger := Erred(s.ledger, Commit(KeyRepo(k), s.inFlight[k]), cs[..n])))
  {
    hide Enabled, Step, Erred;
    var k, cs := s.pc.key, s.pc.contexts;
    var c := Commit(KeyRepo(k), s.inFlight[k]);
    if n == 0 {
      assert Resolves(0) == [] && cs[0..] == cs && cs[..0] == [];
      OneMoreErred(s.ledger, c, [], Rollup);
    } else {
      ResolvesSome(w, s, n - 1);
      var before := Exec(w, s, Resolves(n - 1)).value;
      hide Exec;
      assert Resolves(n) == Resolves(n - 1) + [Resolve];
      assert cs[..n] == cs[..n - 1] + [cs[n - 1]] && cs[n - 1..][1..] == cs[n..];
      OneResolve(w, before);
      Extend(w, s, Resolves(n - 1), Resolve);
      OneMoreErred(s.ledger, c, cs[..n - 1], cs[n - 1]);
    }
  }

  lemma ErredIsSettled(l: Ledger, c: Commit, contexts: seq<Context>)
    requires forall context :: context in contexts <==> Open(l, Place(c, context))
    ensures Erred(l, c, contexts) == Settled(l, {c})
  {
    forall p
      ensures p in Erred(l, c, contexts) <==> p in l
      ensures p in l ==> Erred(l, c, contexts)[p] == if p.commit == c && l[p] == Pending then Error else l[p]
    {
      ErredExactly(l, c, contexts, p);
      assert p.commit == c ==> p == Place(c, p.context);
    }
    hide Erred;
  }

  /** Given a complete listing, the engine's resolving steps do to the ledger just what the
      loop over one commit does: every pending status of the marker's commit becomes an
      error, all others stay, and the marker is gone. */
  lemma ResolveLoopIsResolvePending(w: World, s: State)
    requires s.pc.Resolving? && s.pc.key in s.inFlight
    requires var c := Commit(KeyRepo(s.pc.key), s.inFlight[s.pc.key]);
             forall context :: context in s.pc.contexts <==> Open(s.ledger, Place(c, context))
    ensures var k, end := s.pc.key, Exec(w, s, Resolves(|s.pc.contexts|) + [Resolve]);
            var c := Commit(KeyRepo(k), s.inFlight[k]);
            && end.Some?
            && end.value == s.(pc := Boot(s.pc.todo), inFlight := s.inFlight - {k}, ledger := end.value.ledger)
            && end.value.ledger.Keys == s.ledger.Keys
            && forall p | p in s.ledger ::
                 end.value.ledger[p] == if p.commit == c && s.ledger[p] == Pending then Error else s.ledger[p]
  {
    hide Enabled, Step, Erred, Settled, Exec;
    var k, n := s.pc.key, |s.pc.contexts|;
    var c := Commit(KeyRepo(k), s.inFlight[k]);
    ResolvesSome(w, s, n);
    assert s.pc.contexts[..n] == s.pc.contexts && s.pc.contexts[n..] == [];
    ErredIsSettled(s.ledger, c, s.pc.contexts);
    SettledExactly(s.ledger, {c});
    OneResolve(w, Exec(w, s, Resolves(n)).value);
    Extend(w, s, Resolves(n), Resolve);
  }

  lemma {:induction false} FirstMatchIsWatched(refs: seq<Ref>, k: string)
    requires FirstMatch(refs, k).Some?
    ensures exists i :: 0 <= i < |refs| && refs[i] == FirstMatch(refs, k).value && Matches(refs[i], k)
  {
    hide Matches;
    if !Matches(refs[0], k) {
      FirstMatchIsWatched(refs[1..], k);
      var i :| 0 <= i < |refs[1..]| && refs[1..][i] == FirstMatch(refs[1..], k).value && Matches(refs[1..][i], k);
      assert refs[i + 1] == refs[1..][i];
    } else {
      assert refs[0] == FirstMatch(refs, k).value;
    }
  }
}
