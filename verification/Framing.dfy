/** The bytes that util.go `lockfileHash` and `cacheKey` hash. A character stands for one
    byte; the hash itself is a parameter. */
module Framing {
  import opened Common
  import Keys

  datatype File = File(name: string, data: string)

  const NUL: char := '\0'

  predicate Clean(f: File) { NUL !in f.name && NUL !in f.data }

  function Frame(f: File): string { f.name + [NUL] + f.data + [NUL] }

  function Frames(fs: seq<File>): string {
    if fs == [] then "" else Frame(fs[0]) + Frames(fs[1..])
  }

  /** The named files that can be read; `dir` maps each readable path to its contents. */
  function Readable(dir: map<string, string>, names: seq<string>): (r: seq<File>)
    ensures |r| <= |names|
  {
    if names == [] then [] else
      (if names[0] in dir then [File(names[0], dir[names[0]])] else []) + Readable(dir, names[1..])
  }

  function LockHash(hash: string -> string, dir: map<string, string>, names: seq<string>): string {
    var fs := Readable(dir, names);
    if fs == [] then "" else hash(Frames(fs))
  }

  method LockfileHash(hash: string -> string, dir: map<string, string>, names: seq<string>) returns (r: string)
    ensures r == LockHash(hash, dir, names)
  {
    var h, any := "", false;
    for i := 0 to |names|
      invariant any <==> Readable(dir, names[..i]) != []
      invariant h == Frames(Readable(dir, names[..i]))
    {
      ghost var fs := Readable(dir, names[..i]);
      OneMoreName(dir, names[..i], names[i]);
      assert names[..i + 1] == names[..i] + [names[i]];
      if names[i] in dir {
        any := true;
        h := h + names[i];
        h := h + [NUL];
        h := h + dir[names[i]];
        h := h + [NUL];
        FramesAppend(fs, File(names[i], dir[names[i]]));
      } else {
        assert Readable(dir, names[..i + 1]) == fs;
      }
    }
    assert names[..|names|] == names;
    return if any then hash(h) else "";
  }

  lemma {:induction false} FramesAppend(fs: seq<File>, f: File)
    ensures Frames(fs + [f]) == Frames(fs) + Frame(f)
  {
    hide Frame;
    if fs == [] {
      assert fs + [f] == [f];
    } else {
      FramesAppend(fs[1..], f);
      assert (fs + [f])[1..] == fs[1..] + [f];
    }
  }

  lemma {:induction false} OneMoreName(dir: map<string, string>, names: seq<string>, name: string)
    ensures Readable(dir, names + [name]) ==
            Readable(dir, names) + if name in dir then [File(name, dir[name])] else []
  {
    if names == [] {
      assert names + [name] == [name];
    } else {
      OneMoreName(dir, names[1..], name);
      assert (names + [name])[1..] == names[1..] + [name];
    }
  }

  // ----- reading the framing back -----

  /** The first frame of a text, and what follows it. */
  function NextFrame(s: string): (r: Option<(File, string)>)
    ensures r.Some? ==> |r.value.1| < |s|
  {
    var i := Keys.IndexOf(s, NUL);
    if i < 0 then None else
      var rest := s[i + 1..];
      var j := Keys.IndexOf(rest, NUL);
      if j < 0 then None else Some((File(s[..i], rest[..j]), rest[j + 1..]))
  }

  function Unframe(s: string): Option<seq<File>>
    decreases |s|
  {
    if s == "" then Some([]) else
      match NextFrame(s)
      case None => None
      case Some((f, rest)) =>
        var more := Unframe(rest);
        if more.None? then None else Some([f] + more.value)
  }

  /** The framing can be read back: it loses neither names, contents nor boundaries. */
  lemma {:induction false} FramesRoundTrip(fs: seq<File>)
    requires forall f | f in fs :: Clean(f)
    ensures Unframe(Frames(fs)) == Some(fs)
  {
    if fs != [] {
      assert Clean(fs[0]);
      FramesRoundTrip(fs[1..]);
      UnframeOne(fs[0], Frames(fs[1..]));
      assert fs == [fs[0]] + fs[1..];
    }
  }

  /** A text up to its first separator, and behind it. */
  lemma CutAtFirst(a: string, b: string)
    requires NUL !in a
    ensures var s := a + [NUL] + b; Keys.IndexOf(s, NUL) == |a| && s[..|a|] == a && s[|a| + 1..] == b && s != ""
  {
    Keys.FirstAt(a, b, NUL);
  }

  lemma Regroup(name: string, data: string, more: string)
    ensures Frame(File(name, data)) + more == name + [NUL] + (data + [NUL] + more)
  {
  }

  lemma NextIsFrame(f: File, more: string)
    requires Clean(f)
    ensures NextFrame(Frame(f) + more) == Some((f, more)) && Frame(f) + more != ""
  {
    hide Keys.IndexOf;
    var rest := f.data + [NUL] + more;
    var s := f.name + [NUL] + rest;
    Regroup(f.name, f.data, more);
    hide Frame;
    CutAtFirst(f.name, rest);
    CutAtFirst(f.data, more);
  }

  lemma UnframeOne(f: File, more: string)
    requires Clean(f) && Unframe(more).Some?
    ensures Unframe(Frame(f) + more) == Some([f] + Unframe(more).value)
  {
    NextIsFrame(f, more);
    hide NextFrame, Frame;
  }

  // ----- what the hash can tell apart -----

  /** The assumption about SHA-256: no two inputs collide, and a digest is never empty. */
  ghost predicate CollisionFree(hash: string -> string) {
    (forall a, b :: hash(a) == hash(b) ==> a == b) && forall a :: hash(a) != ""
  }

  ghost predicate CleanDir(dir: map<string, string>) { forall n | n in dir :: NUL !in n && NUL !in dir[n] }

  /** Both directories hold the same contents under the name, or both nothing. */
  predicate SameAt(a: map<string, string>, b: map<string, string>, n: string) {
    (n in a <==> n in b) && (n in a ==> a[n] == b[n])
  }

  lemma {:induction false} ReadableFiles(dir: map<string, string>, names: seq<string>, f: File)
    ensures f in Readable(dir, names) <==> f.name in names && f.name in dir && dir[f.name] == f.data
  {
    if names != [] { ReadableFiles(dir, names[1..], f); }
  }

  /** Two checkouts read the same exactly when they agree on every listed file. */
  lemma {:induction false} SameReading(a: map<string, string>, b: map<string, string>, names: seq<string>)
    ensures Readable(a, names) == Readable(b, names) <==> forall n | n in names :: SameAt(a, b, n)
  {
    if Readable(a, names) == Readable(b, names) {
      forall n | n in names ensures SameAt(a, b, n) {
        if n in a { BothRead(a, b, names, n); }
        if n in b { BothRead(b, a, names, n); }
      }
    }
    if forall n | n in names :: SameAt(a, b, n) { ReadSame(a, b, names); }
  }

  lemma BothRead(a: map<string, string>, b: map<string, string>, names: seq<string>, n: string)
    requires Readable(a, names) == Readable(b, names) && n in names && n in a
    ensures n in b && a[n] == b[n]
  {
    ReadableFiles(a, names, File(n, a[n]));
    ReadableFiles(b, names, File(n, a[n]));
  }

  lemma {:induction false} ReadSame(a: map<string, string>, b: map<string, string>, names: seq<string>)
    requires forall n | n in names :: SameAt(a, b, n)
    ensures Readable(a, names) == Readable(b, names)
  {
    if names != [] {
      assert SameAt(a, b, names[0]);
      assert forall n | n in names[1..] :: n in names;
      ReadSame(a, b, names[1..]);
    }
  }

  lemma CleanReading(dir: map<string, string>, names: seq<string>)
    requires CleanDir(dir)
    ensures forall f | f in Readable(dir, names) :: Clean(f)
  {
    forall f | f in Readable(dir, names) ensures Clean(f) { ReadableFiles(dir, names, f); }
  }

  /** Without NUL bytes, two lists over two checkouts hash the same exactly when the same
      files with the same contents are read in the same order. */
  lemma LockHashExact(hash: string -> string, a: map<string, string>, names: seq<string>,
                      b: map<string, string>, names': seq<string>)
    requires CollisionFree(hash) && CleanDir(a) && CleanDir(b)
    ensures LockHash(hash, a, names) == LockHash(hash, b, names') <==> Readable(a, names) == Readable(b, names')
  {
    var fs, fs' := Readable(a, names), Readable(b, names');
    CleanReading(a, names);
    CleanReading(b, names');
    FramesRoundTrip(fs);
    FramesRoundTrip(fs');
  }

  /** So, for one list, the hash changes exactly when some listed file appears,
      disappears or changes. */
  lemma LockHashChangesExactly(hash: string -> string, a: map<string, string>, b: map<string, string>,
                               names: seq<string>)
    requires CollisionFree(hash) && CleanDir(a) && CleanDir(b)
    ensures LockHash(hash, a, names) == LockHash(hash, b, names) <==> forall n | n in names :: SameAt(a, b, n)
  {
    LockHashExact(hash, a, names, b, names);
    SameReading(a, b, names);
  }

  /** The hash notices every change to the listed files, whatever bytes they hold. */
  ghost predicate NoticesEverything(hash: string -> string, names: seq<string>) {
    forall a: map<string, string>, b: map<string, string> ::
      LockHash(hash, a, names) == LockHash(hash, b, names) ==> Readable(a, names) == Readable(b, names)
  }

  /** With NUL bytes allowed that holds exactly for lists of at most one file: the framing
      has no lengths, so one file's contents can imitate a second file. */
  lemma NoticesEverythingExactly(hash: string -> string, names: seq<string>)
    requires CollisionFree(hash)
    requires forall i, j | 0 <= i < j < |names| :: names[i] != names[j]
    ensures NoticesEverything(hash, names) <==> |names| <= 1
  {
    if |names| <= 1 {
      forall a: map<string, string>, b: map<string, string>
        | LockHash(hash, a, names) == LockHash(hash, b, names)
        ensures Readable(a, names) == Readable(b, names)
      {
        OneFileIsClear(hash, a, b, names);
      }
    } else {
      ImitatedFile(hash, names);
    }
  }

  lemma OneFileIsClear(hash: string -> string, a: map<string, string>, b: map<string, string>, names: seq<string>)
    requires CollisionFree(hash) && |names| <= 1
    requires LockHash(hash, a, names) == LockHash(hash, b, names)
    ensures Readable(a, names) == Readable(b, names)
  {
    if names != [] {
      assert names[1..] == [] && Readable(a, names[1..]) == [] && Readable(b, names[1..]) == [];
      if names[0] in a && names[0] in b {
        var n := names[0];
        assert Frames([File(n, a[n])]) == n + [NUL] + a[n] + [NUL] by { assert [File(n, a[n])][1..] == []; }
        assert Frames([File(n, b[n])]) == n + [NUL] + b[n] + [NUL] by { assert [File(n, b[n])][1..] == []; }
        SameMiddle(n + [NUL], a[n], b[n], [NUL]);
      }
    }
  }

  lemma SameMiddle(pre: string, x: string, y: string, post: string)
    requires pre + x + post == pre + y + post
    ensures x == y
  {
    var s := pre + x + post;
    assert |x| == |y|;
    assert s[|pre|..|s| - |post|] == x && s[|pre|..|s| - |post|] == y;
  }

  /** The two checkouts: one file that contains what the second file's frame would be,
      and the two files themselves. */
  lemma ImitatedFile(hash: string -> string, names: seq<string>)
    requires |names| >= 2 && forall i, j | 0 <= i < j < |names| :: names[i] != names[j]
    ensures !NoticesEverything(hash, names)
  {
    var n, m := names[0], names[1];
    var a := map[n := [NUL] + m + [NUL]];
    var b := map[n := "", m := ""];
    assert names[1..][0] == m && names[1..][1..] == names[2..];
    NoneListed(a, names[2..]);
    NoneListed(b, names[2..]);
    assert Readable(a, names) == [File(n, a[n])];
    assert Readable(b, names) == [File(n, ""), File(m, "")];
    assert Frames(Readable(a, names)) == Frame(File(n, a[n])) by { assert [File(n, a[n])][1..] == []; }
    assert Frames(Readable(b, names)) == Frame(File(n, "")) + Frame(File(m, "")) by {
      assert [File(n, ""), File(m, "")][1..] == [File(m, "")] && [File(m, "")][1..] == [];
    }
    SameBytes(n, m);
  }

  lemma SameBytes(n: string, m: string)
    ensures Frame(File(n, [NUL] + m + [NUL])) == Frame(File(n, "")) + Frame(File(m, ""))
  {
  }

  lemma {:induction false} NoneListed(dir: map<string, string>, names: seq<string>)
    requires forall n | n in names :: n !in dir
    ensures Readable(dir, names) == []
  {
    if names != [] { NoneListed(dir, names[1..]); }
  }

  // ----- cacheKey -----

  function CacheKeyInput(ref: Ref): string { Keys.RepoName(ref.repo) + [NUL] + ref.branch }

  /** The first eight bytes of the digest. */
  function CacheKey(hash: string -> string, ref: Ref): string {
    var sum := hash(CacheKeyInput(ref));
    sum[..Min(8, |sum|)]
  }

  lemma CacheKeyInputInjective(a: Ref, b: Ref)
    requires Keys.Parsed(a.repo) && Keys.Parsed(b.repo)
    requires NUL !in Keys.RepoName(a.repo) && NUL !in Keys.RepoName(b.repo)
    requires CacheKeyInput(a) == CacheKeyInput(b)
    ensures a == b
  {
    Keys.SplitUnique(Keys.RepoName(a.repo), a.branch, Keys.RepoName(b.repo), b.branch, NUL);
    Keys.RepoNameInjective(a.repo, b.repo);
  }

  /** Two different watched branches share a golden cache exactly when the first eight
      bytes of the digests of two different texts agree. */
  lemma CachesAreSeparate(hash: string -> string, a: Ref, b: Ref)
    requires Keys.Parsed(a.repo) && Keys.Parsed(b.repo)
    requires NUL !in Keys.RepoName(a.repo) && NUL !in Keys.RepoName(b.repo)
    ensures CacheKey(hash, a) == CacheKey(hash, b) <==>
            a == b || (CacheKeyInput(a) != CacheKeyInput(b)
                       && hash(CacheKeyInput(a))[..Min(8, |hash(CacheKeyInput(a))|)]
                          == hash(CacheKeyInput(b))[..Min(8, |hash(CacheKeyInput(b))|)])
  {
    if CacheKeyInput(a) == CacheKeyInput(b) { CacheKeyInputInjective(a, b); }
  }
}
