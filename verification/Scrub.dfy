/** util.go `scrub`, over `strings.ReplaceAll`. */
module Scrub {

  /** `strings.ReplaceAll` for a non-empty `target`: leftmost, non-overlapping, left to right. */
  function ReplaceAll(s: string, target: string, replacement: string): string
    requires target != ""
  {
    if |s| < |target| then s
    else if s[..|target|] == target then replacement + ReplaceAll(s[|target|..], target, replacement)
    else [s[0]] + ReplaceAll(s[1..], target, replacement)
  }

  predicate OccursAt(s: string, t: string, i: nat) { i + |t| <= |s| && s[i..i + |t|] == t }

  ghost predicate Contains(s: string, t: string) { exists i: nat :: OccursAt(s, t, i) }

  const MASK := "***"

  /** A secret that the mask's own characters can help to complete. */
  ghost predicate MaskLike(t: string)
    requires t != ""
  {
    t[0] == '*' || t[|t| - 1] == '*' || Contains(t, MASK)
  }

  /** The loop over the secrets; empty ones are skipped. */
  method Scrub(text: string, secrets: seq<string>) returns (s: string)
    ensures s == Scrubbed(text, secrets)
    ensures forall k | 0 <= k < |secrets| && secrets[k] != "" && !MaskLike(secrets[k]) :: !Contains(s, secrets[k])
  {
    s := text;
    for i := 0 to |secrets|
      invariant s == Scrubbed(text, secrets[..i])
    {
      assert secrets[..i + 1][..i] == secrets[..i];
      if secrets[i] != "" { s := ReplaceAll(s, secrets[i], MASK); }
    }
    assert secrets[..|secrets|] == secrets;
    forall k | 0 <= k < |secrets| && secrets[k] != "" && !MaskLike(secrets[k]) ensures !Contains(s, secrets[k]) {
      NoSecretSurvives(text, secrets, k);
    }
  }

  function Scrubbed(text: string, secrets: seq<string>): string {
    if secrets == [] then text else
      var n := |secrets| - 1;
      var before := Scrubbed(text, secrets[..n]);
      if secrets[n] == "" then before else ReplaceAll(before, secrets[n], MASK)
  }

  // ----- secrets that never survive -----

  /** A prefix of the result that neither ends in the mask nor contains one was a prefix
      of the input. */
  lemma {:induction false} PrefixComesThrough(s: string, target: string, n: nat)
    requires target != "" && n <= |ReplaceAll(s, target, MASK)|
    requires var p := ReplaceAll(s, target, MASK)[..n]; p == "" || (p[n - 1] != '*' && !Contains(p, MASK))
    ensures n <= |s| && ReplaceAll(s, target, MASK)[..n] == s[..n]
  {
    var r := ReplaceAll(s, target, MASK);
    if n > 0 && |s| >= |target| {
      if s[..|target|] == target { MaskFirst(r, n); }
      var rest := ReplaceAll(s[1..], target, MASK);
      assert r == [s[0]] + rest;
      ShorterPrefix(s[0], rest, n);
      PrefixComesThrough(s[1..], target, n - 1);
    }
  }

  lemma MaskFirst(r: string, n: nat)
    requires 0 < n <= |r| && 3 <= |r| && r[..3] == MASK
    ensures r[n - 1] == '*' || Contains(r[..n], MASK)
  {
    if n < 3 {
      assert r[n - 1] == r[..3][n - 1];
    } else {
      assert r[..n][0..3] == r[..3];
      assert OccursAt(r[..n], MASK, 0);
    }
  }

  lemma ShorterPrefix(c: char, rest: string, n: nat)
    requires 0 < n <= |rest| + 1 && !Contains(([c] + rest)[..n], MASK)
    ensures ([c] + rest)[..n] == [c] + rest[..n - 1] && !Contains(rest[..n - 1], MASK)
  {
    var p := rest[..n - 1];
    assert ([c] + rest)[..n] == [c] + p;
    if i: nat :| OccursAt(p, MASK, i) {
      assert ([c] + p)[i + 1..i + 4] == p[i..i + 3];
      assert OccursAt([c] + p, MASK, i + 1);
    }
  }

  /** A piece that does not start like the mask lies behind a mask it does not overlap. */
  lemma BehindMask(rest: string, t: string, i: nat)
    requires t != "" && t[0] != '*' && OccursAt(MASK + rest, t, i)
    ensures i >= 3 && OccursAt(rest, t, i - 3)
  {
    var r := MASK + rest;
    assert forall j | 0 <= j < 3 :: r[j] == MASK[j] == '*';
    assert r[i..i + |t|][0] == r[i];
    assert r[i..i + |t|] == rest[i - 3..i - 3 + |t|];
  }

  lemma BehindOne(c: char, rest: string, t: string, i: nat)
    requires i > 0 && OccursAt([c] + rest, t, i)
    ensures OccursAt(rest, t, i - 1)
  {
    assert ([c] + rest)[i..i + |t|] == rest[i - 1..i - 1 + |t|];
  }

  lemma NotLikeMask(t: string)
    requires t != "" && !MaskLike(t)
    ensures t[0] != '*' && t[|t| - 1] != '*' && !Contains(t, MASK)
  {
  }

  /** A piece at the very start of the result. */
  lemma StartComesThrough(s: string, target: string, t: string)
    requires target != "" && |target| <= |s| && s[..|target|] != target
    requires t != "" && !MaskLike(t) && OccursAt(ReplaceAll(s, target, MASK), t, 0)
    ensures t != target && OccursAt(s, t, 0)
  {
    NotLikeMask(t);
    assert ReplaceAll(s, target, MASK)[..|t|] == t;
    PrefixComesThrough(s, target, |t|);
    hide ReplaceAll, MaskLike;
  }

  /** A piece of the result that is not like the mask was a piece of the input, and it is
      not the replaced string itself. */
  lemma {:induction false} PieceComesThrough(s: string, target: string, t: string, i: nat)
    requires target != "" && t != "" && !MaskLike(t)
    requires OccursAt(ReplaceAll(s, target, MASK), t, i)
    ensures t != target && Contains(s, t)
    decreases |s|
  {
    NotLikeMask(t);
    if |s| < |target| {
      assert ReplaceAll(s, target, MASK) == s && OccursAt(s, t, i);
      assert |t| <= |s|;
    } else {
      ReplaceOne(s, target);
      hide ReplaceAll, OccursAt, MaskLike;
      if s[..|target|] == target {
        BehindMask(ReplaceAll(s[|target|..], target, MASK), t, i);
        PieceComesThrough(s[|target|..], target, t, i - 3);
        Deeper(s, |target|, t);
      } else if i == 0 {
        StartComesThrough(s, target, t);
        assert Contains(s, t);
      } else {
        BehindOne(s[0], ReplaceAll(s[1..], target, MASK), t, i);
        PieceComesThrough(s[1..], target, t, i - 1);
        Deeper(s, 1, t);
      }
    }
  }

  lemma Deeper(s: string, k: nat, t: string)
    requires k <= |s| && Contains(s[k..], t)
    ensures Contains(s, t)
  {
    var i: nat :| OccursAt(s[k..], t, i);
    assert s[k..][i..i + |t|] == s[k + i..k + i + |t|];
    assert OccursAt(s, t, k + i);
  }

  /** Replacing one secret removes it and brings back no other. */
  lemma ReplaceRemoves(s: string, target: string, t: string)
    requires target != "" && t != "" && !MaskLike(t) && (t == target || !Contains(s, t))
    ensures !Contains(ReplaceAll(s, target, MASK), t)
  {
    if i: nat :| OccursAt(ReplaceAll(s, target, MASK), t, i) { PieceComesThrough(s, target, t, i); }
  }

  /** After all the sequential replacements no listed secret that is not like the mask is
      left anywhere, whatever the secrets overlap with and in whatever order they come. */
  lemma {:induction false} NoSecretSurvives(text: string, secrets: seq<string>, k: nat)
    requires k < |secrets| && secrets[k] != "" && !MaskLike(secrets[k])
    ensures !Contains(Scrubbed(text, secrets), secrets[k])
  {
    var n := |secrets| - 1;
    if k < n { NoSecretSurvives(text, secrets[..n], k); }
    if secrets[n] != "" { ReplaceRemoves(Scrubbed(text, secrets[..n]), secrets[n], secrets[k]); }
  }

  // ----- secrets that can survive -----

  lemma StartsWith(s: string, t: string)
    ensures OccursAt(s, t, 0) <==> |t| <= |s| && s[..|t|] == t
  {
  }

  lemma ReplaceOne(s: string, target: string)
    requires target != "" && |target| <= |s|
    ensures s[..|target|] == target ==> ReplaceAll(s, target, MASK) == MASK + ReplaceAll(s[|target|..], target, MASK)
    ensures s[..|target|] != target ==> ReplaceAll(s, target, MASK) == [s[0]] + ReplaceAll(s[1..], target, MASK)
  {
  }

  /** Nothing is replaced before the first occurrence. */
  lemma {:induction false} FirstReplaced(s: string, target: string, i: nat)
    requires target != "" && i + |target| <= |s|
    requires OccursAt(s, target, i) && forall j: nat | j < i :: !OccursAt(s, target, j)
    ensures ReplaceAll(s, target, MASK) == s[..i] + MASK + ReplaceAll(s[i + |target|..], target, MASK)
  {
    hide OccursAt, ReplaceAll;
    StartsWith(s, target);
    ReplaceOne(s, target);
    if i > 0 {
      forall j: nat ensures OccursAt(s[1..], target, j) <==> OccursAt(s, target, j + 1) { OneFurther(s, target, j); }
      FirstReplaced(s[1..], target, i - 1);
      assert s[1..][i - 1 + |target|..] == s[i + |target|..];
      Regroup([s[0]], s[1..][..i - 1], ReplaceAll(s[i + |target|..], target, MASK));
      assert [s[0]] + s[1..][..i - 1] == s[..i];
    } else {
      assert s[..0] + MASK == MASK;
    }
  }

  lemma Regroup(a: string, b: string, c: string)
    ensures a + (b + MASK + c) == a + b + MASK + c
  {
  }

  lemma OneFurther(s: string, t: string, j: nat)
    requires s != ""
    ensures OccursAt(s[1..], t, j) <==> OccursAt(s, t, j + 1)
  {
    assert j + 1 + |t| <= |s| ==> s[1..][j..j + |t|] == s[j + 1..j + 1 + |t|];
  }

  /** And a text without the secret is left alone. */
  lemma {:induction false} Untouched(s: string, target: string)
    requires target != "" && !Contains(s, target)
    ensures ReplaceAll(s, target, MASK) == s
  {
    if |s| >= |target| {
      StartsWith(s, target);
      assert !OccursAt(s, target, 0);
      if Contains(s[1..], target) { Deeper(s, 1, target); }
      Untouched(s[1..], target);
      assert [s[0]] + s[1..] == s;
    }
  }

  /** `cut + t + rest` with `cut` a proper prefix of t and `rest` shorter than t: t is
      replaced just once, at |cut|, unless t occurs earlier. */
  lemma ReplacedOnce(t: string, n: nat, rest: string)
    requires t != "" && n < |t| && |rest| < |t|
    requires forall j: nat | j < n :: !OccursAt(t[..n] + t + rest, t, j)
    ensures ReplaceAll(t[..n] + t + rest, t, MASK) == t[..n] + MASK + rest
  {
    var s := t[..n] + t + rest;
    assert ReplaceAll(rest, t, MASK) == rest;
    hide ReplaceAll;
    assert s[n..n + |t|] == t && s[n + |t|..] == rest && s[..n] == t[..n];
    assert OccursAt(s, t, n);
    hide OccursAt;
    FirstReplaced(s, t, n);
  }

  lemma OccursBetween(a: string, t: string, b: string)
    ensures Contains(a + t + b, t)
  {
    assert (a + t + b)[|a|..|a| + |t|] == t;
    assert OccursAt(a + t + b, t, |a|);
  }

  /** An earlier occurrence would make t repeat itself with a shorter period. */
  lemma EarlierRepeats(t: string, n: nat, rest: string, j: nat)
    requires n < |t| && j < n
    ensures OccursAt(t[..n] + t + rest, t, j) ==> forall m | n - j <= m < |t| :: t[m] == t[m - (n - j)]
    ensures OccursAt(t[..n] + t + rest, t, j) ==> t[0] == t[j]
  {
    var s := t[..n] + t + rest;
    if OccursAt(s, t, j) {
      forall m | n - j <= m < |t| ensures t[m] == t[m - (n - j)] {
        assert s[j..j + |t|][m] == s[j + m] == t[j + m - n];
      }
      assert s[j..j + |t|][0] == s[j] == t[j];
    }
  }

  /** The mask's last character and the rest of the text make up a secret that starts with it. */
  lemma StartSurvives(t: string)
    requires t != "" && t[0] == '*'
    ensures Contains(ReplaceAll(t[..0] + t + t[1..], t, MASK), t)
  {
    ReplacedOnce(t, 0, t[1..]);
    hide ReplaceAll, OccursAt;
    BorrowedStars(t);
    OccursBetween("**", t, "");
  }

  lemma BorrowedStars(t: string)
    requires t != "" && t[0] == '*'
    ensures t[..0] + MASK + t[1..] == "**" + t + ""
  {
    var rest := t[1..];
    assert t == "*" + rest && MASK == "**" + "*";
    assert "**" + ("*" + rest) == ("**" + "*") + rest;
  }

  lemma EndSurvives(t: string)
    requires t != "" && t[0] != '*' && t[|t| - 1] == '*'
    ensures Contains(ReplaceAll(t[..|t| - 1] + t + "", t, MASK), t)
  {
    hide ReplaceAll, OccursAt;
    var n := |t| - 1;
    forall j: nat | j < n ensures !OccursAt(t[..n] + t + "", t, j) { NotBeforeEnd(t, j); }
    ReplacedOnce(t, n, "");
    assert t[..n] + MASK + "" == "" + t + "**";
    OccursBetween("", t, "**");
  }

  lemma NotBeforeEnd(t: string, j: nat)
    requires t != "" && t[0] != '*' && t[|t| - 1] == '*' && j < |t| - 1
    ensures !OccursAt(t[..|t| - 1] + t + "", t, j)
  {
    EarlierRepeats(t, |t| - 1, "", j);
  }

  lemma RepeatedMask(t: string, n: nat, rest: string, j: nat)
    requires n < |t| && j < n && OccursAt(t, MASK, n)
    ensures OccursAt(t[..n] + t + rest, t, j) ==> OccursAt(t, MASK, j)
  {
    EarlierRepeats(t, n, rest, j);
    if OccursAt(t[..n] + t + rest, t, j) {
      assert t[n..n + 3] == MASK;
      assert forall m | 0 <= m < 3 :: t[n + m] == MASK[m] && t[j + m] == t[n + m];
      assert t[j..j + 3] == MASK;
    }
  }

  lemma InsideSurvives(t: string, n: nat)
    requires t != "" && OccursAt(t, MASK, n) && forall j: nat | j < n :: !OccursAt(t, MASK, j)
    ensures Contains(ReplaceAll(t[..n] + t + t[n + 3..], t, MASK), t)
  {
    var rest := t[n + 3..];
    forall j: nat | j < n ensures !OccursAt(t[..n] + t + rest, t, j) { RepeatedMask(t, n, rest, j); }
    ReplacedOnce(t, n, rest);
    hide ReplaceAll;
    assert t[..n] + MASK + rest == t;
    assert OccursAt(t, t, 0);
  }

  /** A text in which the mask completes the secret again. */
  lemma SurvivorText(t: string) returns (text: string)
    requires t != "" && MaskLike(t)
    ensures Contains(ReplaceAll(text, t, MASK), t)
  {
    if t[0] == '*' {
      text := t[..0] + t + t[1..];
      StartSurvives(t);
    } else if t[|t| - 1] == '*' {
      text := t[..|t| - 1] + t + "";
      EndSurvives(t);
    } else {
      var n := FirstMask(t);
      text := t[..n] + t + t[n + 3..];
      InsideSurvives(t, n);
    }
  }

  lemma FirstMask(t: string) returns (n: nat)
    requires Contains(t, MASK)
    ensures OccursAt(t, MASK, n) && forall j: nat | j < n :: !OccursAt(t, MASK, j)
  {
    n :| OccursAt(t, MASK, n);
    while exists j: nat :: j < n && OccursAt(t, MASK, j)
      invariant OccursAt(t, MASK, n)
      decreases n
    {
      var j: nat :| j < n && OccursAt(t, MASK, j);
      n := j;
    }
  }

  /** Scrubbing the text of this one secret leaves it there. */
  ghost predicate Survives(text: string, t: string) { Contains(Scrubbed(text, [t]), t) }

  lemma OneSecret(text: string, t: string)
    requires t != ""
    ensures Scrubbed(text, [t]) == ReplaceAll(text, t, MASK)
  {
    assert [t][..0] == [];
  }

  /** Exactly the secrets that start or end with the mask's character, or contain the
      mask, can be left in some scrubbed text; all others never are. */
  lemma SurvivesExactly(t: string)
    requires t != ""
    ensures (exists text :: Survives(text, t)) <==> MaskLike(t)
  {
    if MaskLike(t) {
      var text := SurvivorText(t);
      OneSecret(text, t);
      assert Survives(text, t);
    } else {
      forall text ensures !Survives(text, t) {
        OneSecret(text, t);
        ReplaceRemoves(text, t, t);
      }
    }
  }

  /** A secret made of the mask's own character does survive. */
  lemma StarsSurvive()
    ensures Contains(Scrubbed("x**y", ["**"]), "**")
  {
    var s := "x**y";
    assert s[..2] != "**" && s[1..] == "**y" && s[1..][..2] == "**" && s[1..][2..] == "y";
    assert ReplaceAll(s, "**", MASK) == "x" + ("***" + "y");
    assert ["**"][..0] == [];
    assert OccursAt(Scrubbed(s, ["**"]), "**", 1);
  }
}
