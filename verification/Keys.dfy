/** The strings under which the store keeps commits, branches and runs, and exactly what
    makes them unambiguous. */
module Keys {
  import opened Common
  import opened Lifecycle

  function RepoName(r: Repo): string { r.owner + "/" + r.name }

  function RefName(ref: Ref): string { RepoName(ref.repo) + "@" + ref.branch }

  /** `key`: "owner/name@sha". */
  function SeenKey(r: Repo, sha: string): string { RepoName(r) + "@" + sha }

  /** The in-flight key of a run: `Ref.String` or `prKey`. */
  function KeyName(k: Key): string {
    match k
    case BranchKey(ref) => RefName(ref)
    case PullKey(repo, n) => RepoName(repo) + "#" + Decimal(n)
  }

  function Decimal(n: nat): string {
    if n < 10 then [('0' as int + n) as char] else Decimal(n / 10) + [('0' as int + n % 10) as char]
  }

  /** What parseRef guarantees. */
  predicate Parsed(r: Repo) { r.owner != "" && r.name != "" && '/' !in r.owner && '/' !in r.name }

  /** `strings.Index` for one character: the first position, or -1. */
  function IndexOf(s: string, c: char): (i: int)
    ensures -1 <= i < |s|
    ensures i >= 0 ==> s[i] == c && c !in s[..i]
    ensures i < 0 <==> c !in s
  {
    if s == [] then -1
    else if s[0] == c then 0
    else
      var i := IndexOf(s[1..], c);
      assert i >= 0 ==> s[..i + 1] == [s[0]] + s[1..][..i];
      if i < 0 then -1 else i + 1
  }

  /** A string is split at the first separator in only one way. */
  lemma SplitUnique(a: string, b: string, a': string, b': string, c: char)
    requires a + [c] + b == a' + [c] + b' && c !in a && c !in a'
    ensures a == a' && b == b'
  {
    var s := a + [c] + b;
    assert s[|a|] == c && s[|a'|] == c;
    assert forall i | 0 <= i < |a| :: s[i] == a[i] && a[i] != c;
    assert forall i | 0 <= i < |a'| :: s[i] == a'[i] && a'[i] != c;
    assert s[..|a|] == a && s[..|a'|] == a';
    assert s[|a| + 1..] == b && s[|a'| + 1..] == b';
  }

  lemma FirstAt(a: string, b: string, c: char)
    requires c !in a
    ensures IndexOf(a + [c] + b, c) == |a|
  {
    var s := a + [c] + b;
    assert s[|a|] == c;
    assert forall j | 0 <= j < |a| :: s[j] == a[j] && a[j] != c;
    assert forall j | 0 <= j < IndexOf(s, c) :: s[j] == s[..IndexOf(s, c)][j];
  }

  /** And at the last one. */
  lemma SplitUniqueLast(a: string, b: string, a': string, b': string, c: char)
    requires a + [c] + b == a' + [c] + b' && c !in b && c !in b'
    ensures a == a' && b == b'
  {
    var s := a + [c] + b;
    assert s[|a|] == c && s[|a'|] == c;
    assert forall i | |a| < i < |s| :: s[i] == b[i - |a| - 1] && s[i] != c;
    assert forall i | |a'| < i < |s| :: s[i] == b'[i - |a'| - 1] && s[i] != c;
    assert |a| == |a'|;
    assert s[..|a|] == a && s[..|a'|] == a';
    assert s[|a| + 1..] == b && s[|a'| + 1..] == b';
  }

  lemma RepoNameInjective(a: Repo, b: Repo)
    requires Parsed(a) && Parsed(b) && RepoName(a) == RepoName(b)
    ensures a == b
  {
    SplitUnique(a.owner, a.name, b.owner, b.name, '/');
  }

  /** Two commits share a store key only if they are the same: a hash has no `@`, so the
      last one separates it from the repository. */
  lemma SeenKeyInjective(a: Commit, b: Commit)
    requires Parsed(a.repo) && Parsed(b.repo) && '@' !in a.sha.hex && '@' !in b.sha.hex
    requires SeenKey(a.repo, a.sha.hex) == SeenKey(b.repo, b.sha.hex)
    ensures a == b
  {
    SplitUniqueLast(RepoName(a.repo), a.sha.hex, RepoName(b.repo), b.sha.hex, '@');
    RepoNameInjective(a.repo, b.repo);
  }

  function Undecimal(s: string): int {
    if s == [] then 0 else Undecimal(s[..|s| - 1]) * 10 + (s[|s| - 1] as int - '0' as int)
  }

  lemma {:induction false} DecimalInverse(n: nat)
    ensures Decimal(n) != [] && Undecimal(Decimal(n)) == n
  {
    if n >= 10 {
      DecimalInverse(n / 10);
      var s := Decimal(n);
      assert s[..|s| - 1] == Decimal(n / 10);
    } else {
      assert Decimal(n)[..0] == [];
    }
  }

  /** Separator and rest of a run's key. */
  function KeyTail(k: Key): string {
    match k
    case BranchKey(ref) => "@" + ref.branch
    case PullKey(_, n) => "#" + Decimal(n)
  }

  lemma DecimalDigits(n: nat)
    ensures forall c | c in Decimal(n) :: '0' <= c <= '9'
  {
    if n >= 10 { DecimalDigits(n / 10); }
  }

  lemma KeyParts(k: Key)
    ensures KeyName(k) == RepoName(KeyRepo(k)) + KeyTail(k)
    ensures KeyTail(k) != [] && KeyTail(k)[0] == if k.BranchKey? then '@' else '#'
    ensures KeyTail(k)[1..] == if k.BranchKey? then k.ref.branch else Decimal(k.number)
    ensures k.PullKey? ==> forall i | 0 < i < |KeyTail(k)| :: KeyTail(k)[i] != '@' && KeyTail(k)[i] != '#'
  {
    if k.PullKey? {
      DecimalDigits(k.number);
      var digits := Decimal(k.number);
      assert KeyTail(k) == ['#'] + digits;
      forall i | 0 < i < |KeyTail(k)| ensures KeyTail(k)[i] != '@' && KeyTail(k)[i] != '#' {
        assert KeyTail(k)[i] == digits[i - 1] && digits[i - 1] in digits;
      }
    }
  }

  /** `other` begins with `name` and a separator. */
  predicate Extends(other: string, name: string, sep: char) { HasPrefix(other, name + [sep]) }

  /** In one string, a repository name followed by a separator is also the start of a
      longer name. */
  lemma LongerExtends(a: string, ta: string, b: string, tb: string)
    requires a + ta == b + tb && |a| < |b| && ta != []
    ensures Extends(b, a, ta[0])
  {
    var s := a + ta;
    assert b[..|a|] == s[..|a|] == a && b[|a|] == s[|a|] == ta[0];
    assert b[..|a| + 1] == a + [ta[0]];
  }

  lemma SameLength(a: string, ta: string, b: string, tb: string)
    requires a + ta == b + tb && |a| == |b|
    ensures a == b && ta == tb
  {
    var s := a + ta;
    assert s[..|a|] == a && s[..|b|] == b && s[|a|..] == ta && s[|b|..] == tb;
  }

  /** A separator behind the shorter name of one string lies within the other's tail. */
  lemma TailHolds(a: string, ta: string, b: string, tb: string)
    requires a + ta == b + tb && |a| < |b| && tb != []
    ensures |b| - |a| < |ta| && ta[|b| - |a|] == tb[0]
  {
    var s := a + ta;
    assert s[|b|] == tb[0];
  }

  /** Neither repository's name is the other's with `@` and more behind it. */
  predicate AtApart(a: Repo, b: Repo) {
    !Extends(RepoName(a), RepoName(b), '@') && !Extends(RepoName(b), RepoName(a), '@')
  }

  lemma ShorterKeyDiffers(a: Key, b: Key)
    requires AtApart(KeyRepo(a), KeyRepo(b)) && |RepoName(KeyRepo(a))| < |RepoName(KeyRepo(b))|
    ensures KeyName(a) != KeyName(b)
  {
    hide KeyTail, RepoName, Decimal, Extends;
    KeyParts(a);
    KeyParts(b);
    if KeyName(a) == KeyName(b) {
      LongerExtends(RepoName(KeyRepo(a)), KeyTail(a), RepoName(KeyRepo(b)), KeyTail(b));
      TailHolds(RepoName(KeyRepo(a)), KeyTail(a), RepoName(KeyRepo(b)), KeyTail(b));
    }
  }

  /** Two runs of repositories that are `@`-apart share an in-flight key only if they are
      the same run. */
  lemma KeyNameInjective(a: Key, b: Key)
    requires Parsed(KeyRepo(a)) && Parsed(KeyRepo(b)) && AtApart(KeyRepo(a), KeyRepo(b)) && KeyName(a) == KeyName(b)
    ensures a == b
  {
    hide KeyTail, KeyName, RepoName, Decimal, Undecimal, Extends;
    var name, name' := RepoName(KeyRepo(a)), RepoName(KeyRepo(b));
    if |name| < |name'| { ShorterKeyDiffers(a, b); }
    if |name'| < |name| { ShorterKeyDiffers(b, a); }
    KeyParts(a);
    KeyParts(b);
    SameLength(name, KeyTail(a), name', KeyTail(b));
    RepoNameInjective(KeyRepo(a), KeyRepo(b));
    if a.PullKey? {
      DecimalInverse(a.number);
      DecimalInverse(b.number);
    }
  }

  ghost predicate KeysClash(a: Repo, b: Repo) {
    exists k: Key, k': Key :: KeyRepo(k) == a && KeyRepo(k') == b && KeyName(k) == KeyName(k')
  }

  /** And exactly those do not clash: otherwise two branches of the two repositories share
      a key. */
  lemma KeysClashExactly(a: Repo, b: Repo)
    requires Parsed(a) && Parsed(b) && a != b
    ensures KeysClash(a, b) <==> !AtApart(a, b)
  {
    if KeysClash(a, b) && AtApart(a, b) {
      var k: Key, k': Key :| KeyRepo(k) == a && KeyRepo(k') == b && KeyName(k) == KeyName(k');
      KeyNameInjective(k, k');
    }
    if Extends(RepoName(b), RepoName(a), '@') {
      var x, y := ClashingBranches(a, b);
      SameRefNames(a, x, b, y);
    }
    if Extends(RepoName(a), RepoName(b), '@') {
      var y, x := ClashingBranches(b, a);
      SameRefNames(a, x, b, y);
    }
  }

  lemma SameRefNames(a: Repo, x: string, b: Repo, y: string)
    requires RefName(Ref(a, x)) == RefName(Ref(b, y))
    ensures KeysClash(a, b)
  {
    var k, k' := BranchKey(Ref(a, x)), BranchKey(Ref(b, y));
    assert KeyName(k) == KeyName(k');
  }

  lemma ClashingBranches(a: Repo, b: Repo) returns (x: string, y: string)
    requires Extends(RepoName(b), RepoName(a), '@')
    ensures RefName(Ref(a, x)) == RefName(Ref(b, y))
  {
    var rest := RepoName(b)[|RepoName(a)| + 1..];
    x, y := rest + "@x", "x";
    assert RepoName(b) == RepoName(a) + "@" + rest;
    assert RepoName(a) + "@" + (rest + "@x") == (RepoName(a) + "@" + rest) + "@x";
  }

  /** `strings.HasPrefix`. */
  predicate HasPrefix(s: string, prefix: string) { |prefix| <= |s| && s[..|prefix|] == prefix }

  predicate Matches(ref: Ref, k: string) { k == RefName(ref) || HasPrefix(k, RepoName(ref.repo) + "#") }

  /** `refForKey`: the first watched ref the key can belong to. */
  method RefForKey(refs: seq<Ref>, k: string) returns (r: Option<Ref>)
    ensures r.Some? ==> exists i :: 0 <= i < |refs| && refs[i] == r.value && Matches(refs[i], k)
                                    && forall j | 0 <= j < i :: !Matches(refs[j], k)
    ensures r.None? ==> forall i | 0 <= i < |refs| :: !Matches(refs[i], k)
  {
    for i := 0 to |refs|
      invariant forall j | 0 <= j < i :: !Matches(refs[j], k)
    {
      if k == RefName(refs[i]) || HasPrefix(k, RepoName(refs[i].repo) + "#") {
        return Some(refs[i]);
      }
    }
    return None;
  }

  /** And the watched one's name with `#` behind it does not start the other's. */
  predicate Apart(watched: Repo, other: Repo) {
    AtApart(watched, other) && !Extends(RepoName(other), RepoName(watched), '#')
  }

  /** A ref matches a run's key exactly when it is the run's branch, or the run is a
      pull request of its repository; no other key can be mistaken for it. */
  lemma MatchesExactly(ref: Ref, k: Key)
    requires Parsed(ref.repo) && Parsed(KeyRepo(k)) && Apart(ref.repo, KeyRepo(k))
    ensures Matches(ref, KeyName(k)) <==>
            match k case BranchKey(of) => ref == of case PullKey(repo, _) => ref.repo == repo
  {
    hide RepoName, KeyName, HasPrefix;
    IsBranchKey(ref, k);
    IsPullKeyOf(ref.repo, k);
  }

  /** Some key of the other repository matches a ref of the watched one. */
  ghost predicate Confused(watched: Repo, other: Repo) {
    exists ref: Ref, k: Key :: ref.repo == watched && KeyRepo(k) == other && Matches(ref, KeyName(k))
  }

  /** And exactly repositories that are not apart can be mistaken for one another. */
  lemma ConfusedExactly(watched: Repo, other: Repo)
    requires Parsed(watched) && Parsed(other) && watched != other
    ensures Confused(watched, other) <==> !Apart(watched, other)
  {
    if Confused(watched, other) && Apart(watched, other) {
      var ref: Ref, k: Key :| ref.repo == watched && KeyRepo(k) == other && Matches(ref, KeyName(k));
      MatchesExactly(ref, k);
    }
    if Extends(RepoName(other), RepoName(watched), '@') {
      var x, y := ClashingBranches(watched, other);
      assert Matches(Ref(watched, x), KeyName(BranchKey(Ref(other, y))));
    }
    if Extends(RepoName(watched), RepoName(other), '@') {
      var y, x := ClashingBranches(other, watched);
      assert Matches(Ref(watched, x), KeyName(BranchKey(Ref(other, y))));
    }
    if Extends(RepoName(other), RepoName(watched), '#') {
      var name, k := RepoName(watched) + "#", BranchKey(Ref(other, "x"));
      assert KeyName(k) == RepoName(other) + ("@" + "x");
      assert KeyName(k)[..|name|] == RepoName(other)[..|name|] == name;
      assert Matches(Ref(watched, "x"), KeyName(k));
    }
  }

  lemma IsBranchKey(ref: Ref, k: Key)
    requires Parsed(ref.repo) && Parsed(KeyRepo(k)) && AtApart(ref.repo, KeyRepo(k))
    ensures KeyName(k) == RefName(ref) <==> k == BranchKey(ref)
  {
    assert RefName(ref) == KeyName(BranchKey(ref)) by { BranchKeyName(ref); }
    hide KeyName;
    if KeyName(k) == RefName(ref) { KeyNameInjective(k, BranchKey(ref)); }
  }

  lemma IsPullKeyOf(of: Repo, k: Key)
    requires Parsed(of) && Parsed(KeyRepo(k)) && Apart(of, KeyRepo(k))
    ensures HasPrefix(KeyName(k), RepoName(of) + "#") <==> k.PullKey? && k.of == of
  {
    hide KeyTail, KeyName, RepoName, Decimal;
    var name, repo := RepoName(of), RepoName(KeyRepo(k));
    KeyParts(k);
    if HasPrefix(KeyName(k), name + "#") {
      var rest := "#" + KeyName(k)[|name| + 1..];
      assert KeyName(k) == name + rest && rest[0] == '#';
      if |name| < |repo| {
        LongerExtends(name, rest, repo, KeyTail(k));
      } else if |repo| < |name| {
        LongerExtends(repo, KeyTail(k), name, rest);
        TailHolds(repo, KeyTail(k), name, rest);
      } else {
        SameLength(name, rest, repo, KeyTail(k));
        RepoNameInjective(of, KeyRepo(k));
      }
    }
    if k.PullKey? && k.of == of { assert KeyName(k)[..|name| + 1] == name + "#"; }
  }

  lemma BranchKeyName(ref: Ref)
    ensures KeyName(BranchKey(ref)) == RefName(ref)
  {
  }

  /** refForKey finds a ref for a run's key exactly when the run is still watched. */
  lemma ResolvesExactlyWatched(w: World, k: Key)
    requires Parsed(KeyRepo(k))
    requires forall i | 0 <= i < |w.refs| :: Parsed(w.refs[i].repo) && Apart(w.refs[i].repo, KeyRepo(k))
    ensures Watched(w, k) <==> exists i :: 0 <= i < |w.refs| && Matches(w.refs[i], KeyName(k))
  {
    hide Matches, KeyName, Apart, Parsed;
    forall i | 0 <= i < |w.refs|
      ensures Matches(w.refs[i], KeyName(k)) <==>
              match k case BranchKey(of) => w.refs[i] == of case PullKey(repo, _) => w.refs[i].repo == repo
    {
      MatchesExactly(w.refs[i], k);
    }
  }
}
