/** cache.go: the swap that installs a freshly harvested golden directory, and the test
    that decides whether a golden cache has to be primed again. */
module GoldenCache {
  import opened Common

  /** A directory is the complete result of one harvest, or something in between. */
  datatype Dir = Whole(harvest: nat) | Torn

  /** The golden directory, its `.tmp` and its `.old`; None when absent. */
  datatype Dirs = Dirs(golden: Option<Dir>, tmp: Option<Dir>, prior: Option<Dir>)

  // ----- every step, with failures and crashes -----

  /** The operation harvestCachePath is at. RemoveAll and the copy are not atomic: while
      one is under way its directory is torn. */
  datatype Pc =
    | Resting
    | RemovingTmp | MakingTmp
    | Copying(clean: bool)   // into a directory that had been removed before, or not
    | RemovingOld | Looking | Retiring | Installing | Restoring
    | Discarding | Cleaning

  datatype State = State(dirs: Dirs, pc: Pc, harvest: nat)

  datatype Action =
    | Begin(harvest: nat)
    | Crash
    | Proceed(ok: bool)   // the current operation ends, well or badly

  function Touched(d: Option<Dir>): Option<Dir> { if d.Some? then Some(Torn) else None }

  function Discard(s: State): State { s.(dirs := s.dirs.(tmp := Touched(s.dirs.tmp)), pc := Discarding) }

  predicate Enabled(s: State, a: Action) {
    match a
    case Begin(_) => s.pc.Resting?
    case Crash => true
    case Proceed(ok) =>
      && !s.pc.Resting?
      // A directory cannot be renamed over another one that is there, or when it is not there.
      && (s.pc.Retiring? && ok ==> s.dirs.golden.Some? && s.dirs.prior.None?)
      && (s.pc.Installing? && ok ==> s.dirs.tmp.Some? && s.dirs.golden.None?)
      && (s.pc.Restoring? && ok ==> s.dirs.prior.Some? && s.dirs.golden.None?)
  }

  function Step(s: State, a: Action): State
    requires Enabled(s, a)
  {
    var d := s.dirs;
    match a
    case Crash => s.(pc := Resting)
    case Begin(h) => State(d.(tmp := Touched(d.tmp)), RemovingTmp, h)
    case Proceed(ok) =>
      match s.pc
      case Resting => s
      case RemovingTmp => s.(dirs := if ok then d.(tmp := None) else d, pc := MakingTmp)
      case MakingTmp => if ok then s.(dirs := d.(tmp := Some(Torn)), pc := Copying(d.tmp.None?)) else s.(pc := Resting)
      case Copying(clean) =>
        if ok then s.(dirs := d.(tmp := Some(if clean then Whole(s.harvest) else Torn), prior := Touched(d.prior)),
                      pc := RemovingOld)
        else Discard(s)
      case RemovingOld => s.(dirs := if ok then d.(prior := None) else d, pc := Looking)
      case Looking => s.(pc := if d.golden.Some? then Retiring else Installing)
      case Retiring =>
        if ok then s.(dirs := d.(golden := None, prior := d.golden), pc := Installing) else Discard(s)
      case Installing =>
        if ok then s.(dirs := Dirs(d.tmp, None, Touched(d.prior)), pc := Cleaning) else s.(pc := Restoring)
      case Restoring => Discard(if ok then s.(dirs := d.(golden := d.prior, prior := None)) else s)
      case Discarding => s.(dirs := if ok then d.(tmp := None) else d, pc := Resting)
      case Cleaning => s.(dirs := if ok then d.(prior := None) else d, pc := Resting)
  }

  /** The two removals that precede the swap do not fail half way (they may be cut by a
      crash); the clean-up removals, the copy and every rename may fail. */
  predicate Tidy(s: State, a: Action) {
    a.Proceed? && (s.pc.RemovingTmp? || s.pc.RemovingOld?) ==> a.ok
  }

  predicate Sound(d: Option<Dir>) { d.None? || d.value.Whole? }

  predicate Inv(s: State) {
    && Sound(s.dirs.golden)
    && (s.pc.MakingTmp? ==> s.dirs.tmp.None?)
    && (s.pc.Copying? ==> s.pc.clean)
    && (s.pc.RemovingOld? || s.pc.Looking? || s.pc.Retiring? || s.pc.Installing? || s.pc.Restoring? ==>
          s.dirs.tmp == Some(Whole(s.harvest)))
    && (s.pc.Looking? || s.pc.Retiring? ==> s.dirs.prior.None?)
    && (s.pc.Installing? || s.pc.Restoring? ==> s.dirs.golden.None? && Sound(s.dirs.prior))
  }

  ghost function Exec(first: Dirs, schedule: seq<Action>): Option<State> {
    if schedule == [] then Some(State(first, Resting, 0)) else
      var before := Exec(first, schedule[..|schedule| - 1]);
      var a := schedule[|schedule| - 1];
      if before.Some? && Enabled(before.value, a) && Tidy(before.value, a) then Some(Step(before.value, a)) else None
  }

  /** Starting from an absent or complete golden directory, whatever the other two hold,
      after any number of harvests with failing copies and renames and crashes anywhere,
      the golden directory is absent or the result of one complete harvest. */
  lemma {:induction false} GoldenIsNeverPartial(first: Dirs, schedule: seq<Action>)
    requires Sound(first.golden) && Exec(first, schedule).Some?
    ensures Inv(Exec(first, schedule).value) && Sound(Exec(first, schedule).value.dirs.golden)
  {
    if schedule != [] { GoldenIsNeverPartial(first, schedule[..|schedule| - 1]); }
  }

  lemma Extend(first: Dirs, schedule: seq<Action>, a: Action)
    requires Exec(first, schedule).Some?
    requires Enabled(Exec(first, schedule).value, a) && Tidy(Exec(first, schedule).value, a)
    ensures Exec(first, schedule + [a]) == Some(Step(Exec(first, schedule).value, a))
  {
    assert (schedule + [a])[..|schedule|] == schedule;
  }

  /** Up to the copy, a harvest over a golden directory leaves it alone. */
  lemma Harvested(g: nat, h: nat)
    ensures Exec(Dirs(Some(Whole(g)), None, None), [Begin(h)] + [Proceed(true)] + [Proceed(true)] + [Proceed(true)]) ==
            Some(State(Dirs(Some(Whole(g)), Some(Whole(h)), None), RemovingOld, h))
  {
    var first, done := Dirs(Some(Whole(g)), None, None), Proceed(true);
    var a1 := [Begin(h)];
    assert Exec(first, []) == Some(State(first, Resting, 0)) && [] + a1 == a1;
    Extend(first, [], Begin(h));
    hide Exec;
    assert Exec(first, a1) == Some(State(first, RemovingTmp, h));
    Extend(first, a1, done);
    assert Exec(first, a1 + [done]) == Some(State(first, MakingTmp, h));
    Extend(first, a1 + [done], done);
    assert Exec(first, a1 + [done] + [done]) == Some(State(first.(tmp := Some(Torn)), Copying(true), h));
    Extend(first, a1 + [done] + [done], done);
  }

  /** But the swap is not atomic: every successful harvest over a golden directory passes
      a point where there is none, and a crash there leaves none. */
  lemma SwapLeavesAGap(g: nat, h: nat)
    ensures var done := Proceed(true);
            var retired := Exec(Dirs(Some(Whole(g)), None, None),
                                [Begin(h)] + [done] + [done] + [done] + [done] + [done] + [done]);
            && retired == Some(State(Dirs(None, Some(Whole(h)), Some(Whole(g))), Installing, h))
            && Step(retired.value, Crash).dirs.golden.None?
            && Step(retired.value, done).dirs.golden == Some(Whole(h))
  {
    var first, done := Dirs(Some(Whole(g)), None, None), Proceed(true);
    var a4 := [Begin(h)] + [done] + [done] + [done];
    Harvested(g, h);
    hide Exec;
    Extend(first, a4, done);
    assert Exec(first, a4 + [done]) == Some(State(Dirs(Some(Whole(g)), Some(Whole(h)), None), Looking, h));
    Extend(first, a4 + [done], done);
    assert Exec(first, a4 + [done] + [done]) == Some(State(Dirs(Some(Whole(g)), Some(Whole(h)), None), Retiring, h));
    Extend(first, a4 + [done] + [done], done);
  }

  // ----- one call, and exactly when it goes wrong -----

  /** How each operation of one uncrashed call turns out; removals that fail leave part
      of the directory behind, and their errors are ignored. */
  datatype Outcomes = Outcomes(
    tmpRemoved: bool, made: bool, copied: bool, oldRemoved: bool, retired: bool, installed: bool, restored: bool,
    cleaned: bool)   // the removals that end the call

  /** How the operation the machine is at turns out. */
  function Outcome(s: State, o: Outcomes): bool {
    match s.pc
    case RemovingTmp => o.tmpRemoved
    case MakingTmp => o.made
    case Copying(_) => o.copied
    case RemovingOld => o.oldRemoved
    case Retiring => o.retired && s.dirs.golden.Some? && s.dirs.prior.None?
    case Installing => o.installed && s.dirs.tmp.Some? && s.dirs.golden.None?
    case Restoring => o.restored && s.dirs.prior.Some? && s.dirs.golden.None?
    case Discarding => o.cleaned
    case Cleaning => o.cleaned
    case _ => true
  }

  function Left(pc: Pc): nat {
    match pc
    case RemovingTmp => 9 case MakingTmp => 8 case Copying(_) => 7 case RemovingOld => 6 case Looking => 5
    case Retiring => 4 case Installing => 3 case Restoring => 2 case Discarding => 1 case Cleaning => 1
    case Resting => 0
  }

  /** The machine's run from here on, without a crash. */
  function Finish(s: State, o: Outcomes): State
    decreases Left(s.pc)
  {
    if s.pc.Resting? then s else Finish(Step(s, Proceed(Outcome(s, o))), o)
  }

  lemma OneOperation(s: State, o: Outcomes)
    requires !s.pc.Resting?
    ensures Finish(s, o) == Finish(Step(s, Proceed(Outcome(s, o))), o)
  {
  }

  lemma Advance(s: State, o: Outcomes) returns (next: State)
    requires !s.pc.Resting?
    ensures next == Step(s, Proceed(Outcome(s, o))) && Finish(s, o) == Finish(next, o)
  {
    OneOperation(s, o);
    next := Step(s, Proceed(Outcome(s, o)));
  }

  lemma AtRest(s: State, o: Outcomes)
    requires s.pc.Resting?
    ensures Finish(s, o) == s
  {
  }

  /** The end of the swap, with the golden directory out of the way. */
  function Installed(d: Dirs, o: Outcomes): Dirs {
    if o.installed then Dirs(d.tmp, None, if o.cleaned then None else Touched(d.prior))
    else
      var back := o.restored && d.prior.Some?;
      Dirs(if back then d.prior else None, if o.cleaned then None else Touched(d.tmp), if back then None else d.prior)
  }

  /** What one call leaves. */
  function Swapped(d: Dirs, h: nat, o: Outcomes): Dirs {
    var tmp := if o.tmpRemoved then None else Touched(d.tmp);
    if !o.made then d.(tmp := tmp)
    else if !o.copied then d.(tmp := if o.cleaned then None else Some(Torn))
    else
      var harvested := Some(if tmp.None? then Whole(h) else Torn);
      var prior := if o.oldRemoved then None else Touched(d.prior);
      if d.golden.None? then Installed(Dirs(None, harvested, prior), o)
      else if o.retired && prior.None? then Installed(Dirs(None, harvested, d.golden), o)
      else Dirs(d.golden, if o.cleaned then None else Some(Torn), prior)
  }

  lemma InstallRuns(s: State, o: Outcomes)
    requires s.pc.Installing? && s.dirs.golden.None? && s.dirs.tmp.Some?
    ensures Finish(s, o).dirs == Installed(s.dirs, o)
  {
    hide Finish;
    var m := Advance(s, o);
    m := Advance(m, o);
    if !o.installed { m := Advance(m, o); }
    AtRest(m, o);
  }

  lemma DiscardRuns(s: State, o: Outcomes)
    requires s.pc.Discarding? && s.dirs.tmp == Touched(s.dirs.tmp)
    ensures Finish(s, o).dirs == s.dirs.(tmp := if o.cleaned then None else s.dirs.tmp)
  {
    hide Finish;
    var m := Advance(s, o);
    AtRest(m, o);
  }

  lemma CopyRuns(s: State, o: Outcomes)
    requires s.pc.Copying? && s.dirs.tmp == Some(Torn)
    ensures Finish(s, o).dirs ==
            if !o.copied then s.dirs.(tmp := if o.cleaned then None else Some(Torn))
            else
              var harvested := Some(if s.pc.clean then Whole(s.harvest) else Torn);
              var prior := if o.oldRemoved then None else Touched(s.dirs.prior);
              if s.dirs.golden.None? then Installed(Dirs(None, harvested, prior), o)
              else if o.retired && prior.None? then Installed(Dirs(None, harvested, s.dirs.golden), o)
              else Dirs(s.dirs.golden, if o.cleaned then None else Some(Torn), prior)
  {
    hide Finish, Installed;
    var m := Advance(s, o);
    if !o.copied {
      DiscardRuns(m, o);
    } else {
      m := Advance(m, o);
      SwapRuns(m, o);
    }
  }

  lemma SwapRuns(s: State, o: Outcomes)
    requires s.pc.Looking? && s.dirs.tmp.Some?
    ensures Finish(s, o).dirs ==
            if s.dirs.golden.None? then Installed(s.dirs, o)
            else if o.retired && s.dirs.prior.None? then Installed(Dirs(None, s.dirs.tmp, s.dirs.golden), o)
            else Dirs(s.dirs.golden, if o.cleaned then None else Some(Torn), s.dirs.prior)
  {
    hide Finish, Installed;
    var m := Advance(s, o);
    if s.dirs.golden.Some? { m := Advance(m, o); }
    if m.pc.Installing? { InstallRuns(m, o); } else { DiscardRuns(m, o); }
  }

  /** One call that is not cut by a crash is a run of the machine: what the method leaves in
      the three directories is what the machine leaves, however each operation turns out. */
  lemma HarvestIsARun(d: Dirs, h: nat, o: Outcomes)
    ensures Finish(Step(State(d, Resting, 0), Begin(h)), o).dirs == Swapped(d, h, o)
  {
    hide Finish, Installed;
    var m := Step(State(d, Resting, 0), Begin(h));
    m := Advance(m, o);
    m := Advance(m, o);
    if o.made { CopyRuns(m, o); } else { AtRest(m, o); }
  }

  /** A call succeeds when the copy and the renames it needs do; a directory cannot be
      renamed over a leftover that could not be removed. */
  predicate Succeeds(d: Dirs, o: Outcomes) {
    o.made && o.copied && o.installed && (d.golden.None? || (o.retired && (d.prior.None? || o.oldRemoved)))
  }

  /** What a call means for the golden directory: success installs the harvest, failure
      leaves the previous one in place, or restored; only when restoring it fails too is it
      gone, and then it is still there beside its place. */
  lemma HarvestOutcome(d: Dirs, h: nat, o: Outcomes)
    ensures var d', ok := Swapped(d, h, o), Succeeds(d, o);
            && (ok ==> d'.golden == Some(if d.tmp.Some? && !o.tmpRemoved then Torn else Whole(h)))
            && (!ok && d.golden.Some? ==>
                  d'.golden ==
                  if o.made && o.copied && o.retired && (d.prior.None? || o.oldRemoved) && !o.restored
                  then None else d.golden)
            && (!ok && d.golden.None? ==>
                  d'.golden ==
                  if o.made && o.copied && o.restored && d.prior.Some? && !o.oldRemoved then Some(Torn) else None)
            && (!ok && d'.golden.None? && d.golden.Some? ==> d'.prior == d.golden)
            && (o.cleaned && o.made ==> d'.tmp.None? && (ok ==> d'.prior.None?))
  {
  }

  class Cache {
    var golden: Option<Dir>
    var tmp: Option<Dir>
    var prior: Option<Dir>

    /** harvestCachePath. */
    method Harvest(h: nat, o: Outcomes) returns (ok: bool)
      modifies this
      ensures Dirs(golden, tmp, prior) == Swapped(old(Dirs(golden, tmp, prior)), h, o)
      ensures ok == Succeeds(old(Dirs(golden, tmp, prior)), o)
    {
      tmp := if o.tmpRemoved then None else Touched(tmp);
      if !o.made { return false; }
      var clean := tmp.None?;
      tmp := Some(Torn);
      if !o.copied {
        tmp := if o.cleaned then None else Touched(tmp);
        return false;
      }
      if clean { tmp := Some(Whole(h)); }
      prior := if o.oldRemoved then None else Touched(prior);
      if golden.Some? {
        if !(o.retired && prior.None?) {
          tmp := if o.cleaned then None else Touched(tmp);
          return false;
        }
        prior, golden := golden, None;
      }
      if !o.installed {
        if o.restored && prior.Some? { golden, prior := prior, None; }
        tmp := if o.cleaned then None else Touched(tmp);
        return false;
      }
      golden, tmp := tmp, None;
      prior := if o.cleaned then None else Touched(prior);
      return true;
    }
  }

  /** Exactly when one call leaves a mixture where there was none. */
  lemma TornExactly(d: Dirs, h: nat, o: Outcomes)
    requires d.golden != Some(Torn)
    ensures Swapped(d, h, o).golden == Some(Torn) <==>
            && o.made && o.copied
            && ((d.tmp.Some? && !o.tmpRemoved && o.installed
                 && (d.golden.None? || (o.retired && (d.prior.None? || o.oldRemoved))))
                || (d.golden.None? && d.prior.Some? && !o.oldRemoved && !o.installed && o.restored))
  {
  }

  // ----- cacheNeedsPrime -----

  datatype Meta = Meta(lockHash: string, primed: int)

  /** `present[i]` says whether path i's golden directory exists; `hash` is the lockfile
      hash, empty when the plan has no marker that exists. */
  method NeedsPrime(present: seq<bool>, meta: Option<Meta>, hash: string, refresh: int, now: int) returns (needed: bool)
    ensures !needed <==>
              && (forall i | 0 <= i < |present| :: present[i])
              && meta.Some?
              && (hash == "" || hash == meta.value.lockHash)
              && (refresh <= 0 || now < meta.value.primed + refresh)
  {
    for i := 0 to |present|
      invariant forall j | 0 <= j < i :: present[j]
    {
      if !present[i] { return true; }
    }
    if meta.None? { return true; }
    if hash != "" && hash != meta.value.lockHash { return true; }
    if refresh > 0 && now - meta.value.primed >= refresh { return true; }
    return false;
  }
}
