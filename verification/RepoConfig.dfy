/** config.go `parseRepoConfig`: what it guarantees about the checks, and what the gate
    still has to assume about the contexts it posts on. */
module RepoConfig {
  import opened Common
  import L = Lifecycle

  /** `cpus` and `memory` are the texts of the hints, empty when unset. */
  datatype Check = Check(name: string, run: string, cpus: string, memory: string)

  datatype Problem =
    NoChecks | NoName(at: nat) | NoRun(at: nat) | Duplicate(at: nat)
  | UnsafeCpus(at: nat) | BadCpus(at: nat) | UnsafeMemory(at: nat)

  predicate Alphanumeric(c: char) { 'a' <= c <= 'z' || 'A' <= c <= 'Z' || '0' <= c <= '9' }

  predicate SafeArg(s: string) {
    && s != "" && (Alphanumeric(s[0]) || s[0] == '.')
    && forall c | c in s :: Alphanumeric(c) || c in ",._-/:@+"
  }

  /** `strconv.ParseFloat`, as far as its answer is a number; None for an error. */
  type FloatParser = string -> Option<real>

  /** What is wrong with check i first, in the order in which the loop looks. */
  function ProblemAt(parse: FloatParser, checks: seq<Check>, i: nat): Option<Problem>
    requires i < |checks|
  {
    var ck := checks[i];
    if ck.name == "" then Some(NoName(i))
    else if ck.run == "" then Some(NoRun(i))
    else if exists j :: 0 <= j < i && checks[j].name == ck.name then Some(Duplicate(i))
    else if ck.cpus != "" && !SafeArg(ck.cpus) then Some(UnsafeCpus(i))
    else if ck.cpus != "" && (parse(ck.cpus).None? || parse(ck.cpus).value <= 0.0) then Some(BadCpus(i))
    else if ck.memory != "" && !SafeArg(ck.memory) then Some(UnsafeMemory(i))
    else None
  }

  /** The part of parseRepoConfig that looks at the checks. It reports the first problem
      of the first check that has one. */
  method ValidateChecks(parse: FloatParser, checks: seq<Check>) returns (r: Option<Problem>)
    ensures r == Some(NoChecks) <==> checks == []
    ensures r.None? <==> checks != [] && forall i | 0 <= i < |checks| :: ProblemAt(parse, checks, i).None?
    ensures r.Some? && r.value != NoChecks ==>
              exists i :: 0 <= i < |checks| && r == ProblemAt(parse, checks, i)
                          && forall j | 0 <= j < i :: ProblemAt(parse, checks, j).None?
  {
    if |checks| == 0 { return Some(NoChecks); }
    var seen: set<string> := {};
    for i := 0 to |checks|
      invariant forall j | 0 <= j < i :: ProblemAt(parse, checks, j).None?
      invariant forall n :: n in seen <==> exists j :: 0 <= j < i && checks[j].name == n
    {
      var ck := checks[i];
      var known := ProblemAt(parse, checks, i);
      if ck.name == "" { return Some(NoName(i)); }
      if ck.run == "" { return Some(NoRun(i)); }
      if ck.name in seen { return Some(Duplicate(i)); }
      seen := seen + {ck.name};
      if ck.cpus != "" {
        if !SafeArg(ck.cpus) { return Some(UnsafeCpus(i)); }
        var n := parse(ck.cpus);
        if n.None? || n.value <= 0.0 { return Some(BadCpus(i)); }
      }
      if ck.memory != "" && !SafeArg(ck.memory) { return Some(UnsafeMemory(i)); }
    }
    return None;
  }

  predicate Accepted(parse: FloatParser, checks: seq<Check>) {
    checks != [] && forall i | 0 <= i < |checks| :: ProblemAt(parse, checks, i).None?
  }

  /** The guarantee in one piece: checks exist, names and commands are non-empty, names
      are pairwise different, and every cpus hint is a positive number. */
  lemma AcceptedExactly(parse: FloatParser, checks: seq<Check>)
    ensures Accepted(parse, checks) <==>
              && checks != []
              && (forall i | 0 <= i < |checks| :: checks[i].name != "" && checks[i].run != "")
              && (forall i, j | 0 <= i < j < |checks| :: checks[i].name != checks[j].name)
              && (forall i | 0 <= i < |checks| && checks[i].cpus != "" ::
                    SafeArg(checks[i].cpus) && parse(checks[i].cpus).Some? && parse(checks[i].cpus).value > 0.0)
              && (forall i | 0 <= i < |checks| && checks[i].memory != "" :: SafeArg(checks[i].memory))
  {
    hide SafeArg;
    if Accepted(parse, checks) {
      forall i | 0 <= i < |checks|
        ensures checks[i].name != "" && checks[i].run != ""
        ensures forall j | 0 <= j < i :: checks[j].name != checks[i].name
        ensures checks[i].cpus != "" ==>
                  SafeArg(checks[i].cpus) && parse(checks[i].cpus).Some? && parse(checks[i].cpus).value > 0.0
        ensures checks[i].memory != "" ==> SafeArg(checks[i].memory)
      {
        assert ProblemAt(parse, checks, i).None?;
      }
    }
  }

  /** cpuCost: the hint, or 1. */
  function CpuCost(parse: FloatParser, ck: Check): (cost: real)
    ensures cost > 0.0
  {
    if ck.cpus == "" then 1.0 else
      var n := parse(ck.cpus);
      if n.None? || n.value <= 0.0 then 1.0 else n.value
  }

  const SCAN_STEP := "trivy"

  /** The steps of the gate: every check, and the built-in scan if there is one. */
  function Steps(checks: seq<Check>, scan: bool): seq<string> {
    seq(|checks|, i requires 0 <= i < |checks| => checks[i].name) + if scan then [SCAN_STEP] else []
  }

  /** All the contexts one run can post on. */
  function Posted(checks: seq<Check>, scan: bool): seq<string> {
    ["ci", "ci/promote"] + Prefixed(Steps(checks, scan))
  }

  predicate DistinctTexts(s: seq<string>) { forall i, j | 0 <= i < j < |s| :: s[i] != s[j] }

  predicate Names(checks: seq<Check>, name: string) { exists i :: 0 <= i < |checks| && checks[i].name == name }

  lemma StepsDistinct(parse: FloatParser, checks: seq<Check>, scan: bool)
    requires Accepted(parse, checks)
    ensures DistinctTexts(Steps(checks, scan)) <==> !(scan && Names(checks, SCAN_STEP))
  {
    AcceptedExactly(parse, checks);
    var steps := Steps(checks, scan);
    assert forall i | 0 <= i < |checks| :: steps[i] == checks[i].name;
    if scan {
      assert steps[|checks|] == SCAN_STEP;
      if DistinctTexts(steps) { assert forall i | 0 <= i < |checks| :: steps[i] != steps[|checks|]; }
    }
  }

  lemma PrefixedEqual(a: string, b: string)
    ensures "ci/" + a == "ci/" + b <==> a == b
    ensures "ci/" + a != "ci"
  {
    assert ("ci/" + a)[3..] == a && ("ci/" + b)[3..] == b;
  }

  lemma DistinctTwoMore(a: string, b: string, s: seq<string>)
    ensures DistinctTexts([a, b] + s) <==> a != b && a !in s && b !in s && DistinctTexts(s)
  {
    var all := [a, b] + s;
    assert all[0] == a && all[1] == b;
    assert forall i | 0 <= i < |s| :: all[i + 2] == s[i];
    if DistinctTexts(all) {
      forall i, j | 0 <= i < j < |s| ensures s[i] != s[j] { assert all[i + 2] != all[j + 2]; }
      forall i | 0 <= i < |s| ensures s[i] != a && s[i] != b { assert all[0] != all[i + 2] && all[1] != all[i + 2]; }
    }
  }

  function Prefixed(steps: seq<string>): seq<string> {
    seq(|steps|, i requires 0 <= i < |steps| => "ci/" + steps[i])
  }

  lemma PrefixedExact(steps: seq<string>)
    ensures DistinctTexts(Prefixed(steps)) <==> DistinctTexts(steps)
    ensures "ci" !in Prefixed(steps)
    ensures "ci/promote" in Prefixed(steps) <==> "promote" in steps
  {
    var ps := Prefixed(steps);
    forall i, j | 0 <= i < |steps| && 0 <= j < |steps| ensures ps[i] == ps[j] <==> steps[i] == steps[j] {
      PrefixedEqual(steps[i], steps[j]);
    }
    forall i | 0 <= i < |steps| ensures ps[i] != "ci" && (ps[i] == "ci/promote" <==> steps[i] == "promote") {
      PrefixedEqual(steps[i], "promote");
      assert "ci/" + "promote" == "ci/promote";
    }
    if DistinctTexts(ps) {
      forall i, j | 0 <= i < j < |steps| ensures steps[i] != steps[j] { assert ps[i] != ps[j]; }
    }
    if "promote" in steps {
      var i :| 0 <= i < |steps| && steps[i] == "promote";
      assert ps[i] == "ci/promote";
    }
  }

  /** An accepted file gives every status its own context exactly when no check takes one
      of the two names that the engine uses itself. */
  lemma ContextsDistinctExactly(parse: FloatParser, checks: seq<Check>, scan: bool)
    requires Accepted(parse, checks)
    ensures DistinctTexts(Posted(checks, scan)) <==> !(scan && Names(checks, SCAN_STEP)) && !Names(checks, "promote")
  {
    hide Accepted;
    StepsDistinct(parse, checks, scan);
    PrefixedExact(Steps(checks, scan));
    DistinctTwoMore("ci", "ci/promote", Prefixed(Steps(checks, scan)));
    StepNamed(checks, scan, "promote");
  }

  lemma StepNamed(checks: seq<Check>, scan: bool, name: string)
    requires name != SCAN_STEP
    ensures name in Steps(checks, scan) <==> Names(checks, name)
  {
    var steps := Steps(checks, scan);
    assert forall i | 0 <= i < |checks| :: steps[i] == checks[i].name;
  }

  /** The checks as the engine model takes them. */
  function AsChecks(parse: FloatParser, checks: seq<Check>, scan: bool, promote: Option<string>): L.Checks {
    L.Checks(seq(|Steps(checks, scan)|, i requires 0 <= i < |Steps(checks, scan)| => Gated(Steps(checks, scan)[i])),
             seq(|checks|, i requires 0 <= i < |checks| => CpuCost(parse, checks[i])) + (if scan then [1.0] else []),
             promote)
  }

  /** So what the engine model assumes about configuration files holds for exactly the
      accepted files without a check called `trivy` next to a scan. */
  lemma EngineAssumption(parse: FloatParser, checks: seq<Check>, scan: bool, promote: Option<string>)
    requires Accepted(parse, checks)
    ensures L.ValidChecks(AsChecks(parse, checks, scan, promote)) <==> !(scan && Names(checks, SCAN_STEP))
  {
    hide Accepted;
    StepsDistinct(parse, checks, scan);
    var k, steps := AsChecks(parse, checks, scan, promote), Steps(checks, scan);
    assert forall i | 0 <= i < |steps| :: k.contexts[i] == Gated(steps[i]);
    assert |checks| > 0 by { AcceptedExactly(parse, checks); }
    assert forall i | 0 <= i < |checks| :: k.costs[i] == CpuCost(parse, checks[i]);
    if L.ValidChecks(k) {
      forall i, j | 0 <= i < j < |steps| ensures steps[i] != steps[j] { assert k.contexts[i] != k.contexts[j]; }
    }
  }
}
