/** state.go: the persisted sets of processed commits, last tested commits and
    in-flight runs. Every change writes through, pruning old entries on the way. */
module StateFile {
  import opened Common
  import opened Keys
  import L = Lifecycle

  /** seenRetention, in seconds: 180 days. */
  const RETENTION: int := 180 * 24 * 3600

  /** The contents of the state file. */
  datatype Snapshot = Snapshot(seen: map<string, int>, last: map<string, string>, inFlight: map<string, string>)

  const EMPTY := Snapshot(map[], map[], map[])

  // ----- what the operations compute -----

  /** The `keep` entry for one branch: everything before the first `@`, and the SHA. */
  function Shield(branch: string, sha: string): Option<string> {
    var i := IndexOf(branch, '@');
    if i > 0 then Some(branch[..i] + "@" + sha) else None
  }

  function Shields(last: map<string, string>): set<string> {
    set b | b in last && Shield(b, last[b]).Some? :: Shield(b, last[b]).value
  }

  function Pruned(d: Snapshot, cutoff: int): Snapshot {
    d.(seen := map k | k in d.seen && (d.seen[k] >= cutoff || k in Shields(d.last)) :: d.seen[k])
  }

  /** What save leaves in memory, at time `clock`. */
  function Saved(d: Snapshot, clock: int): Snapshot { Pruned(d, clock - RETENTION) }

  function WithSeen(seen: map<string, int>, repo: Repo, shas: seq<string>, now: int): map<string, int> {
    if shas == [] then seen else
      var before := WithSeen(seen, repo, shas[..|shas| - 1], now);
      var sha := shas[|shas| - 1];
      if sha == "" then before else before[SeenKey(repo, sha) := now]
  }

  function HasSpec(d: Snapshot, repo: Repo, sha: string): bool {
    SeenKey(repo, sha) in d.seen && d.seen[SeenKey(repo, sha)] != 0
  }

  function MarkSpec(d: Snapshot, repo: Repo, shas: seq<string>, now: int, clock: int): Snapshot {
    Saved(d.(seen := WithSeen(d.seen, repo, shas, now)), clock)
  }

  function MarkBranchSpec(d: Snapshot, ref: Ref, tip: string, sha: string, now: int, clock: int): Snapshot {
    var seen := WithSeen(d.seen, ref.repo, [tip, sha], now);
    Saved(d.(seen := seen, last := if sha == "" then d.last else d.last[RefName(ref) := sha]), clock)
  }

  function SetInFlightSpec(d: Snapshot, k: string, sha: string, clock: int): Snapshot {
    Saved(d.(inFlight := d.inFlight[k := sha]), clock)
  }

  function ClearInFlightSpec(d: Snapshot, k: string, clock: int): Snapshot {
    if k in d.inFlight then Saved(d.(inFlight := d.inFlight - {k}), clock) else d
  }

  // ----- the store -----

  /** `disk` is the file. A save that fails leaves it as it was: the new contents are
      written beside it and renamed over it. */
  class Store {
    var seen: map<string, int>
    var last: map<string, string>
    var inFlight: map<string, string>
    var disk: Snapshot

    ghost function Value(): Snapshot
      reads this
    {
      Snapshot(seen, last, inFlight)
    }

    /** LoadStore. */
    constructor (file: Snapshot)
      ensures Value() == file && disk == file
    {
      seen, last, inFlight := file.seen, file.last, file.inFlight;
      disk := file;
    }

    method Has(ref: Ref, sha: string) returns (found: bool)
      ensures found == HasSpec(Value(), ref.repo, sha)
    {
      var k := SeenKey(ref.repo, sha);
      found := k in seen && seen[k] != 0;
    }

    /** The loop that collects the shielded keys. */
    method Keep() returns (keep: set<string>)
      ensures keep == Shields(last)
    {
      keep := {};
      var todo := last.Keys;
      while todo != {}
        invariant todo <= last.Keys
        invariant keep == set b | b in last && b !in todo && Shield(b, last[b]).Some? :: Shield(b, last[b]).value
        decreases |todo|
      {
        var r :| r in todo;
        var i := IndexOf(r, '@');
        if i > 0 {
          keep := keep + {r[..i] + "@" + last[r]};
          assert Shield(r, last[r]) == Some(r[..i] + "@" + last[r]);
        }
        todo := todo - {r};
      }
    }

    /** save: prune in place, then replace the file. */
    method Save(clock: int, written: bool) returns (ok: bool)
      modifies this
      ensures Value() == Saved(old(Value()), clock)
      ensures disk == (if written then Value() else old(disk)) && ok == written
    {
      var cutoff := clock - RETENTION;
      var keep := Keep();
      var todo := seen.Keys;
      ghost var was := seen;
      while todo != {}
        invariant todo <= was.Keys && last == old(last) && inFlight == old(inFlight) && disk == old(disk)
        invariant forall k :: k in seen <==> k in was && (k in todo || was[k] >= cutoff || k in keep)
        invariant forall k | k in seen :: seen[k] == was[k]
        decreases |todo|
      {
        var k :| k in todo;
        if seen[k] < cutoff && k !in keep { seen := seen - {k}; }
        todo := todo - {k};
      }
      assert seen == Pruned(Snapshot(was, last, inFlight), cutoff).seen;
      ok := written;
      if written { disk := Snapshot(seen, last, inFlight); }
    }

    method Mark(ref: Ref, shas: seq<string>, now: int, clock: int, written: bool) returns (ok: bool)
      modifies this
      ensures Value() == MarkSpec(old(Value()), ref.repo, shas, now, clock)
      ensures last == old(last) && inFlight == old(inFlight)
      ensures disk == (if written then Value() else old(disk)) && ok == written
    {
      for i := 0 to |shas|
        invariant last == old(last) && inFlight == old(inFlight) && disk == old(disk)
        invariant seen == WithSeen(old(seen), ref.repo, shas[..i], now)
      {
        assert shas[..i + 1][..i] == shas[..i];
        if shas[i] != "" { seen := seen[SeenKey(ref.repo, shas[i]) := now]; }
      }
      assert shas[..|shas|] == shas;
      ok := Save(clock, written);
    }

    method MarkBranch(ref: Ref, tip: string, sha: string, now: int, clock: int, written: bool) returns (ok: bool)
      modifies this
      ensures Value() == MarkBranchSpec(old(Value()), ref, tip, sha, now, clock)
      ensures last == (if sha == "" then old(last) else old(last)[RefName(ref) := sha]) && inFlight == old(inFlight)
      ensures disk == (if written then Value() else old(disk)) && ok == written
    {
      var both := [tip, sha];
      for i := 0 to 2
        invariant last == old(last) && inFlight == old(inFlight) && disk == old(disk)
        invariant seen == WithSeen(old(seen), ref.repo, both[..i], now)
      {
        assert both[..i + 1][..i] == both[..i];
        if both[i] != "" { seen := seen[SeenKey(ref.repo, both[i]) := now]; }
      }
      assert both[..2] == both;
      if sha != "" { last := last[RefName(ref) := sha]; }
      ok := Save(clock, written);
    }

    method LastTested(ref: Ref) returns (sha: string)
      ensures sha == if RefName(ref) in last then last[RefName(ref)] else ""
    {
      sha := if RefName(ref) in last then last[RefName(ref)] else "";
    }

    method SetInFlight(k: string, sha: string, clock: int, written: bool) returns (ok: bool)
      modifies this
      ensures Value() == SetInFlightSpec(old(Value()), k, sha, clock)
      ensures inFlight == old(inFlight)[k := sha] && last == old(last)
      ensures disk == (if written then Value() else old(disk)) && ok == written
    {
      inFlight := inFlight[k := sha];
      ok := Save(clock, written);
    }

    method ClearInFlight(k: string, clock: int, written: bool) returns (ok: bool)
      modifies this
      ensures Value() == ClearInFlightSpec(old(Value()), k, clock)
      ensures inFlight == old(inFlight) - {k} && last == old(last)
      ensures disk == (if written && k in old(inFlight) then Value() else old(disk))
      ensures ok == (written || k !in old(inFlight))
    {
      if k !in inFlight { return true; }
      inFlight := inFlight - {k};
      ok := Save(clock, written);
    }
  }

  /** seenMap.UnmarshalJSON on a legacy file of booleans: true entries become seen now. */
  method MigrateLegacy(legacy: map<string, bool>, now: int) returns (seen: map<string, int>)
    ensures seen == map k | k in legacy && legacy[k] :: now
  {
    seen := map[];
    var todo := legacy.Keys;
    while todo != {}
      invariant todo <= legacy.Keys
      invariant seen == map k | k in legacy && k !in todo && legacy[k] :: now
      decreases |todo|
    {
      var k :| k in todo;
      if legacy[k] { seen := seen[k := now]; }
      todo := todo - {k};
    }
  }

  // ----- pruning, exactly -----

  /** The shield computed from a branch's string protects that branch's last commit
      exactly when its repository name has no `@`. */
  lemma ShieldExact(ref: Ref, sha: string)
    requires ref.repo.owner != ""
    ensures Shield(RefName(ref), sha) == Some(SeenKey(ref.repo, sha)) <==> '@' !in RepoName(ref.repo)
  {
    var name, s := RepoName(ref.repo), RefName(ref);
    var i := IndexOf(s, '@');
    if '@' !in name {
      FirstAt(name, ref.branch, '@');
      assert s[..|name|] == name;
    } else {
      var j :| 0 <= j < |name| && name[j] == '@';
      assert s[j] == '@';
      assert forall m | 0 <= m < i :: s[m] == s[..i][m] && s[m] != '@';
      if i > 0 {
        assert |s[..i] + "@" + sha| != |SeenKey(ref.repo, sha)|;
      }
    }
  }

  /** The key of a branch's last tested commit, as far as the branch's string tells: what
      comes before its first `@`, and that commit. */
  predicate IsShieldOf(branch: string, sha: string, k: string) {
    exists i :: 0 < i < |branch| && branch[i] == '@' && '@' !in branch[..i] && k == branch[..i] + "@" + sha
  }

  ghost predicate Shielded(d: Snapshot, k: string) {
    exists b :: b in d.last && IsShieldOf(b, d.last[b], k)
  }

  lemma ShieldOf(name: string, rest: string, sha: string)
    requires name != "" && '@' !in name
    ensures Shield(name + "@" + rest, sha) == Some(name + "@" + sha)
  {
    FirstAt(name, rest, '@');
    assert (name + "@" + rest)[..|name|] == name;
  }

  lemma ShieldMeans(branch: string, sha: string, k: string)
    ensures Shield(branch, sha) == Some(k) <==> IsShieldOf(branch, sha, k)
  {
    var first := IndexOf(branch, '@');
    if IsShieldOf(branch, sha, k) {
      var i :| 0 < i < |branch| && branch[i] == '@' && '@' !in branch[..i] && k == branch[..i] + "@" + sha;
      assert forall m | 0 <= m < i :: branch[m] == branch[..i][m] && branch[m] != '@';
      assert forall m | 0 <= m < first :: branch[m] == branch[..first][m] && branch[m] != '@';
      assert i == first;
    }
  }

  lemma ShieldsExactly(d: Snapshot, k: string)
    ensures k in Shields(d.last) <==> Shielded(d, k)
  {
    forall b | b in d.last ensures Shield(b, d.last[b]) == Some(k) <==> IsShieldOf(b, d.last[b], k) {
      ShieldMeans(b, d.last[b], k);
    }
    hide Shield, IsShieldOf;
  }

  /** After a save the seen set is exactly the entries young enough, or shielded by some
      branch; their times, and the other two maps, are unchanged. */
  lemma SaveKeepsExactly(d: Snapshot, clock: int)
    ensures forall k :: k in Saved(d, clock).seen <==>
                        k in d.seen && (d.seen[k] >= clock - RETENTION || Shielded(d, k))
    ensures forall k | k in Saved(d, clock).seen :: Saved(d, clock).seen[k] == d.seen[k]
    ensures Saved(d, clock).last == d.last && Saved(d, clock).inFlight == d.inFlight
  {
    forall k ensures k in Shields(d.last) <==> Shielded(d, k) { ShieldsExactly(d, k); }
    hide Shielded, Shields;
  }

  /** The commit is the last tested one of a branch whose string starts with the
      repository's name, and that name has no `@`. */
  ghost predicate LastOfSomeBranch(d: Snapshot, repo: Repo, sha: string) {
    '@' !in RepoName(repo) && exists b :: b in d.last && d.last[b] == sha && RepoName(repo) + "@" <= b
  }

  lemma ShieldOfCommit(branch: string, last: string, repo: Repo, sha: string)
    requires '@' !in last && '@' !in sha
    ensures IsShieldOf(branch, last, SeenKey(repo, sha)) <==>
            last == sha && '@' !in RepoName(repo) && RepoName(repo) + "@" <= branch
  {
    var name := RepoName(repo);
    if IsShieldOf(branch, last, SeenKey(repo, sha)) {
      var i :| 0 < i < |branch| && branch[i] == '@' && '@' !in branch[..i]
               && name + "@" + sha == branch[..i] + "@" + last;
      SplitUniqueLast(name, sha, branch[..i], last, '@');
      assert branch[..i + 1] == branch[..i] + "@";
    }
    if last == sha && '@' !in name && name + "@" <= branch {
      assert branch[..|name| + 1] == name + "@";
      assert branch[|name|] == branch[..|name| + 1][|name|] && branch[..|name|] == name;
    }
  }

  /** Whether a commit survives a save, whatever its repository is called: exactly when
      it is young enough, or some branch's last tested one in a repository without `@`. */
  lemma CommitsKeptExactly(d: Snapshot, clock: int, repo: Repo, sha: string)
    requires '@' !in sha && forall b | b in d.last :: '@' !in d.last[b]
    ensures SeenKey(repo, sha) in Saved(d, clock).seen <==>
            SeenKey(repo, sha) in d.seen
            && (d.seen[SeenKey(repo, sha)] >= clock - RETENTION || LastOfSomeBranch(d, repo, sha))
    ensures SeenKey(repo, sha) in Saved(d, clock).seen ==>
              Saved(d, clock).seen[SeenKey(repo, sha)] == d.seen[SeenKey(repo, sha)]
  {
    SaveKeepsExactly(d, clock);
    forall b | b in d.last
      ensures IsShieldOf(b, d.last[b], SeenKey(repo, sha)) <==>
              d.last[b] == sha && '@' !in RepoName(repo) && RepoName(repo) + "@" <= b
    {
      ShieldOfCommit(b, d.last[b], repo, sha);
    }
    hide Saved, IsShieldOf, SeenKey, RepoName;
  }

  // ----- any history of operations -----

  datatype Op =
    | OpMark(ref: Ref, shas: seq<string>, now: int, clock: int, written: bool)
    | OpMarkBranch(ref: Ref, tip: string, sha: string, now: int, clock: int, written: bool)
    | OpSetInFlight(k: string, value: string, clock: int, written: bool)
    | OpClearInFlight(k: string, clock: int, written: bool)
    | OpReload   // the process restarts and reads the file

  /** Memory and file. */
  datatype Both = Both(memory: Snapshot, disk: Snapshot)

  function After(b: Both, memory: Snapshot, written: bool): Both {
    Both(memory, if written then memory else b.disk)
  }

  function Apply(b: Both, op: Op): Both {
    match op
    case OpMark(ref, shas, now, clock, written) => After(b, MarkSpec(b.memory, ref.repo, shas, now, clock), written)
    case OpMarkBranch(ref, tip, sha, now, clock, written) =>
      After(b, MarkBranchSpec(b.memory, ref, tip, sha, now, clock), written)
    case OpSetInFlight(k, sha, clock, written) => After(b, SetInFlightSpec(b.memory, k, sha, clock), written)
    case OpClearInFlight(k, clock, written) =>
      After(b, ClearInFlightSpec(b.memory, k, clock), written && k in b.memory.inFlight)
    case OpReload => Both(b.disk, b.disk)
  }

  function ApplyAll(ops: seq<Op>): Both {
    if ops == [] then Both(EMPTY, EMPTY) else Apply(ApplyAll(ops[..|ops| - 1]), ops[|ops| - 1])
  }

  /** The callers' side: a clock that is not at the epoch, and no repository whose branches
      share keys with those of the branch looked at. */
  predicate Sound(ref: Ref, op: Op) {
    match op
    case OpMark(_, _, now, _, _) => now != 0
    case OpMarkBranch(other, _, _, now, _, _) => now != 0 && Parsed(other.repo) && AtApart(ref.repo, other.repo)
    case _ => true
  }

  predicate AllSound(ref: Ref, ops: seq<Op>) { forall i | 0 <= i < |ops| :: Sound(ref, ops[i]) }

  predicate Timed(d: Snapshot) { forall k | k in d.seen :: d.seen[k] != 0 }

  /** The branch's last tested commit counts as processed. */
  predicate Remembers(d: Snapshot, ref: Ref) {
    RefName(ref) in d.last ==> HasSpec(d, ref.repo, d.last[RefName(ref)])
  }

  lemma SaveKeepsTip(d: Snapshot, clock: int, ref: Ref)
    requires Remembers(d, ref) && Timed(d) && RepoName(ref.repo) != "" && '@' !in RepoName(ref.repo)
    ensures Remembers(Saved(d, clock), ref) && Timed(Saved(d, clock))
  {
    if RefName(ref) in d.last {
      ShieldOf(RepoName(ref.repo), ref.branch, d.last[RefName(ref)]);
    }
    hide Shield, RefName, SeenKey;
  }

  lemma {:induction false} WithSeenGrows(seen: map<string, int>, repo: Repo, shas: seq<string>, now: int)
    ensures var after := WithSeen(seen, repo, shas, now);
            && seen.Keys <= after.Keys
            && (forall k | k in after :: after[k] == now || (k in seen && after[k] == seen[k]))
            && (forall i | 0 <= i < |shas| && shas[i] != "" :: SeenKey(repo, shas[i]) in after)
  {
    if shas != [] { WithSeenGrows(seen, repo, shas[..|shas| - 1], now); }
  }

  lemma MarkKeepsTip(d: Snapshot, repo: Repo, shas: seq<string>, now: int, ref: Ref)
    requires Remembers(d, ref) && Timed(d) && now != 0
    ensures var d' := d.(seen := WithSeen(d.seen, repo, shas, now)); Remembers(d', ref) && Timed(d')
  {
    WithSeenGrows(d.seen, repo, shas, now);
    hide WithSeen, RefName, SeenKey;
  }

  lemma MarkBranchKeepsTip(d: Snapshot, of: Ref, tip: string, sha: string, now: int, clock: int, ref: Ref)
    requires Remembers(d, ref) && Timed(d) && Sound(ref, OpMarkBranch(of, tip, sha, now, clock, true))
    requires Parsed(ref.repo) && '@' !in RepoName(ref.repo)
    ensures var d' := MarkBranchSpec(d, of, tip, sha, now, clock); Remembers(d', ref) && Timed(d')
  {
    var seen := WithSeen(d.seen, of.repo, [tip, sha], now);
    WithSeenGrows(d.seen, of.repo, [tip, sha], now);
    assert [tip, sha][1] == sha;
    if RefName(of) == RefName(ref) { SameRefName(of, ref); }
    var d' := d.(seen := seen, last := if sha == "" then d.last else d.last[RefName(of) := sha]);
    assert Remembers(d', ref) && Timed(d') by { hide WithSeen, RefName, SeenKey; }
    SaveKeepsTip(d', clock, ref);
  }

  lemma SameRefName(a: Ref, b: Ref)
    requires Parsed(a.repo) && Parsed(b.repo) && AtApart(b.repo, a.repo) && RefName(a) == RefName(b)
    ensures a == b
  {
    hide RefName, RepoName, Extends;
    BranchKeyName(a);
    BranchKeyName(b);
    KeyNameInjective(L.BranchKey(b), L.BranchKey(a));
  }

  lemma {:induction false} TipsAlwaysSeen(ops: seq<Op>, ref: Ref)
    requires AllSound(ref, ops) && Parsed(ref.repo) && '@' !in RepoName(ref.repo)
    ensures Remembers(ApplyAll(ops).memory, ref) && Timed(ApplyAll(ops).memory)
    ensures Remembers(ApplyAll(ops).disk, ref) && Timed(ApplyAll(ops).disk)
  {
    if ops != [] {
      var n := |ops| - 1;
      assert forall i | 0 <= i < n :: ops[..n][i] == ops[i];
      TipsAlwaysSeen(ops[..n], ref);
      OneMoreOp(ApplyAll(ops[..n]), ops[n], ref);
      hide Remembers, Timed, Apply;
    }
  }

  lemma OneMoreOp(b: Both, op: Op, ref: Ref)
    requires Sound(ref, op) && Parsed(ref.repo) && '@' !in RepoName(ref.repo)
    requires Remembers(b.memory, ref) && Timed(b.memory) && Remembers(b.disk, ref) && Timed(b.disk)
    ensures Remembers(Apply(b, op).memory, ref) && Timed(Apply(b, op).memory)
    ensures Remembers(Apply(b, op).disk, ref) && Timed(Apply(b, op).disk)
  {
    var d := b.memory;
    match op
    case OpMark(of, shas, now, clock, _) =>
      MarkKeepsTip(d, of.repo, shas, now, ref);
      SaveKeepsTip(d.(seen := WithSeen(d.seen, of.repo, shas, now)), clock, ref);
      hide Remembers, Timed, Saved, WithSeen;
    case OpMarkBranch(of, tip, sha, now, clock, _) =>
      MarkBranchKeepsTip(d, of, tip, sha, now, clock, ref);
      hide Remembers, Timed, MarkBranchSpec;
    case OpSetInFlight(k, sha, clock, _) =>
      SaveKeepsTip(d.(inFlight := d.inFlight[k := sha]), clock, ref);
      hide Saved;
    case OpClearInFlight(k, clock, _) =>
      SaveKeepsTip(d.(inFlight := d.inFlight - {k}), clock, ref);
      hide Saved;
    case OpReload =>
  }

  /** In every history the branch's last tested commit counts as processed, in memory and
      in the file. */
  ghost predicate NeverForgotten(ref: Ref) {
    forall ops | AllSound(ref, ops) :: Remembers(ApplyAll(ops).memory, ref) && Remembers(ApplyAll(ops).disk, ref)
  }

  /** Whatever the operations, failed writes, reloads and clock jumps, a branch's last
      tested commit always counts as processed exactly when its repository has no `@`. */
  lemma TipIsNeverForgotten(ref: Ref)
    requires Parsed(ref.repo)
    ensures NeverForgotten(ref) <==> '@' !in RepoName(ref.repo)
  {
    if '@' !in RepoName(ref.repo) {
      forall ops | AllSound(ref, ops)
        ensures Remembers(ApplyAll(ops).memory, ref) && Remembers(ApplyAll(ops).disk, ref) {
        TipsAlwaysSeen(ops, ref);
      }
    } else {
      var ops := ForgettingOps(ref);
      assert !Remembers(ApplyAll(ops).memory, ref);
    }
  }

  /** Test the branch once, and save again after the retention period. */
  lemma ForgettingOps(ref: Ref) returns (ops: seq<Op>)
    requires Parsed(ref.repo) && '@' in RepoName(ref.repo)
    ensures AllSound(ref, ops) && !Remembers(ApplyAll(ops).memory, ref)
  {
    var tested, later := OpMarkBranch(ref, "", "s", 1, 1, true), OpMark(ref, [], 1, RETENTION + 2, true);
    ops := [tested, later];
    NotBeyondItself(RepoName(ref.repo));
    assert ops[..1] == [tested] && [tested][..0] == [];
    var d := MarkBranchSpec(EMPTY, ref, "", "s", 1, 1);
    MarkedOnce(ref);
    assert ApplyAll([tested]).memory == d;
    ShieldExact(ref, "s");
    assert Apply(ApplyAll([tested]), later).memory == Saved(d, RETENTION + 2);
    assert ApplyAll(ops) == Apply(ApplyAll(ops[..1]), ops[1]);
    assert forall b | b in d.last :: b == RefName(ref);
    assert SeenKey(ref.repo, "s") !in Shields(d.last);
    hide Shields, RefName, SeenKey;
  }

  lemma NotBeyondItself(name: string)
    ensures !Extends(name, name, '@')
  {
  }

  lemma MarkedOnce(ref: Ref)
    ensures var d := MarkBranchSpec(EMPTY, ref, "", "s", 1, 1);
            d.seen == map[SeenKey(ref.repo, "s") := 1] && d.last == map[RefName(ref) := "s"]
  {
    assert ["", "s"][..1] == [""] && [""][..0] == [];
    assert WithSeen(EMPTY.seen, ref.repo, [], 1) == map[] && WithSeen(EMPTY.seen, ref.repo, [""], 1) == map[];
    assert WithSeen(EMPTY.seen, ref.repo, ["", "s"], 1) == map[SeenKey(ref.repo, "s") := 1];
    hide RefName, SeenKey, Shield;
  }

  // ----- reading back what was written -----

  lemma {:induction false} WithSeenExactly(seen: map<string, int>, repo: Repo, shas: seq<string>, now: int, k: string)
    ensures var marked := exists i :: 0 <= i < |shas| && shas[i] != "" && SeenKey(repo, shas[i]) == k;
            && (k in WithSeen(seen, repo, shas, now) <==> marked || k in seen)
            && (marked ==> WithSeen(seen, repo, shas, now)[k] == now)
            && (!marked && k in seen ==> WithSeen(seen, repo, shas, now)[k] == seen[k])
  {
    if shas != [] {
      var n := |shas| - 1;
      WithSeenExactly(seen, repo, shas[..n], now, k);
      assert forall i | 0 <= i < n :: shas[..n][i] == shas[i];
    }
  }

  /** What Has answers after Mark, for every commit: exactly those marked just now count,
      and those that counted before, unless pruning dropped them. A timestamp of zero
      never counts. */
  lemma HasAfterMark(d: Snapshot, repo: Repo, shas: seq<string>, now: int, clock: int, of: Repo, sha: string)
    requires Parsed(repo) && Parsed(of) && '@' !in sha && forall i | 0 <= i < |shas| :: '@' !in shas[i]
    ensures var marked := of == repo && sha != "" && sha in shas;
            var kept := SeenKey(of, sha) in Shields(d.last);
            HasSpec(MarkSpec(d, repo, shas, now, clock), of, sha) <==>
            if marked then now != 0 && (kept || now >= clock - RETENTION)
            else HasSpec(d, of, sha) && (kept || d.seen[SeenKey(of, sha)] >= clock - RETENTION)
  {
    var k := SeenKey(of, sha);
    WithSeenExactly(d.seen, repo, shas, now, k);
    forall i | 0 <= i < |shas| && SeenKey(repo, shas[i]) == k ensures repo == of && shas[i] == sha {
      SeenKeyInjective(Commit(repo, Sha(shas[i])), Commit(of, Sha(sha)));
    }
    if sha in shas {
      var i :| 0 <= i < |shas| && shas[i] == sha;
    }
    hide SeenKey, Shields, WithSeen;
  }

  /** And after MarkBranch: the sampled tip and the tested commit count from now on. */
  lemma HasAfterMarkBranch(d: Snapshot, ref: Ref, tip: string, sha: string, now: int, clock: int, of: Repo, s: string)
    requires Parsed(ref.repo) && Parsed(of) && '@' !in tip && '@' !in sha && '@' !in s
    ensures var d' := MarkBranchSpec(d, ref, tip, sha, now, clock);
            var marked := of == ref.repo && s != "" && (s == tip || s == sha);
            var kept := SeenKey(of, s) in Shields(d'.last);
            HasSpec(d', of, s) <==>
            if marked then now != 0 && (kept || now >= clock - RETENTION)
            else HasSpec(d, of, s) && (kept || d.seen[SeenKey(of, s)] >= clock - RETENTION)
  {
    var k := SeenKey(of, s);
    WithSeenExactly(d.seen, ref.repo, [tip, sha], now, k);
    assert [tip, sha][0] == tip && [tip, sha][1] == sha;
    forall i | 0 <= i < 2 && SeenKey(ref.repo, [tip, sha][i]) == k ensures ref.repo == of && [tip, sha][i] == s {
      SeenKeyInjective(Commit(ref.repo, Sha([tip, sha][i])), Commit(of, Sha(s)));
    }
    hide SeenKey, Shields, WithSeen, RefName;
  }

  /** What LastTested answers after MarkBranch, for every branch: the tested commit for
      the branch itself; what it was for all others, of any repository whose name does not
      extend the marked one's by `@`, or the other way round. */
  lemma LastAfterMarkBranch(d: Snapshot, ref: Ref, tip: string, sha: string, now: int, clock: int, of: Ref)
    requires Parsed(ref.repo) && Parsed(of.repo)
    ensures var d' := MarkBranchSpec(d, ref, tip, sha, now, clock);
            && (of == ref && sha != "" ==> RefName(of) in d'.last && d'.last[RefName(of)] == sha)
            && ((of != ref && AtApart(ref.repo, of.repo)) || sha == "" ==>
                  (RefName(of) in d'.last <==> RefName(of) in d.last)
                  && (RefName(of) in d.last ==> d'.last[RefName(of)] == d.last[RefName(of)]))
  {
    if RefName(of) == RefName(ref) && AtApart(ref.repo, of.repo) { SameRefName(of, ref); }
    hide RefName, WithSeen, Shields;
  }

  lemma OneWrite(b: Both, op: Op)
    ensures Apply(b, op).disk == b.disk || Apply(b, op).disk == Apply(b, op).memory
    ensures op == OpReload ==> Apply(b, op) == Both(b.disk, b.disk)
  {
    hide MarkSpec, MarkBranchSpec, SetInFlightSpec, ClearInFlightSpec;
  }

  /** After any history the file holds the whole memory of some earlier moment, never a
      mixture, and a restart reads exactly that. */
  lemma {:induction false} FileIsSomeMemory(ops: seq<Op>)
    ensures exists i :: 0 <= i <= |ops| && ApplyAll(ops).disk == ApplyAll(ops[..i]).memory
    ensures Apply(ApplyAll(ops), OpReload).memory == ApplyAll(ops).disk
  {
    hide Apply;
    OneWrite(ApplyAll(ops), OpReload);
    if ops == [] {
      assert ops[..0] == ops;
    } else {
      var n := |ops| - 1;
      FileIsSomeMemory(ops[..n]);
      OneWrite(ApplyAll(ops[..n]), ops[n]);
      var i :| 0 <= i <= n && ApplyAll(ops[..n]).disk == ApplyAll(ops[..n][..i]).memory;
      assert ops[..n][..i] == ops[..i] && ops[..|ops|] == ops;
    }
  }

  // ----- the in-flight markers over any history -----

  /** The marker a key has in memory, read off the history: what was last set, unless it was
      cleared since, or an older file has been read back. */
  ghost function Marker(ops: seq<Op>, k: string): Option<string>
    decreases |ops|, 0
  {
    if ops == [] then None else
      var n := |ops| - 1;
      match ops[n]
      case OpSetInFlight(of, sha, _, _) => if of == k then Some(sha) else Marker(ops[..n], k)
      case OpClearInFlight(of, _, _) => if of == k then None else Marker(ops[..n], k)
      case OpReload => FileMarker(ops[..n], k)
      case _ => Marker(ops[..n], k)
  }

  /** And in the file: as in memory at the last operation that was written. Clearing a
      marker that is not there writes nothing. */
  ghost function FileMarker(ops: seq<Op>, k: string): Option<string>
    decreases |ops|, 1
  {
    if ops == [] then None else
      var n := |ops| - 1;
      var op := ops[n];
      var written := !op.OpReload? && op.written && (op.OpClearInFlight? ==> Marker(ops[..n], op.k).Some?);
      if written then Marker(ops, k) else FileMarker(ops[..n], k)
  }

  predicate Holds(markers: map<string, string>, k: string, m: Option<string>) {
    if k in markers then m == Some(markers[k]) else m.None?
  }

  lemma MarkersApply(b: Both, op: Op, k: string)
    ensures var after := Apply(b, op).memory.inFlight;
            match op
            case OpSetInFlight(of, sha, _, _) => after == b.memory.inFlight[of := sha]
            case OpClearInFlight(of, _, _) => after == b.memory.inFlight - {of}
            case OpReload => after == b.disk.inFlight
            case _ => after == b.memory.inFlight
    ensures var written := !op.OpReload? && op.written && (op.OpClearInFlight? ==> op.k in b.memory.inFlight);
            Apply(b, op).disk == if written then Apply(b, op).memory else b.disk
  {
    hide WithSeen, Shields;
  }

  /** After any history of operations, failed writes and restarts, the store holds exactly
      the markers that were last set and not cleared, under the commits last set; and the
      file those of the last operation that was written. */
  lemma {:induction false} MarkersExactly(ops: seq<Op>, k: string)
    ensures Holds(ApplyAll(ops).memory.inFlight, k, Marker(ops, k))
    ensures Holds(ApplyAll(ops).disk.inFlight, k, FileMarker(ops, k))
  {
    hide Apply;
    if ops != [] {
      var n := |ops| - 1;
      MarkersExactly(ops[..n], k);
      if ops[n].OpClearInFlight? { MarkersExactly(ops[..n], ops[n].k); }
      MarkersApply(ApplyAll(ops[..n]), ops[n], k);
    }
  }

  /** Whatever an operation has written, a restart reads back. */
  lemma WrittenIsReadBack(ops: seq<Op>, op: Op)
    requires !op.OpReload? && op.written && (op.OpClearInFlight? ==> op.k in ApplyAll(ops).memory.inFlight)
    ensures ApplyAll(ops + [op] + [OpReload]).memory == ApplyAll(ops + [op]).memory
  {
    hide MarkSpec, MarkBranchSpec, SetInFlightSpec, ClearInFlightSpec;
    assert (ops + [op])[..|ops|] == ops && (ops + [op] + [OpReload])[..|ops + [op]|] == ops + [op];
  }
}
