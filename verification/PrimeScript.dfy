/** cache.go `detectCachePlan` after the walk, and `dedupe`: the prime script it builds
    and what a shell makes of it. */
module PrimeScript {
  import opened Common
  import opened Shell

  /** One ecosystem: marker file, cache paths, and the command as words. */
  datatype Preset = Preset(marker: string, paths: seq<string>, argv: seq<string>)

  const PRESETS := [
    Preset("go.mod", ["/go/pkg/mod", "/root/.cache/go-build"], ["go", "mod", "download"]),
    Preset("package-lock.json", ["/root/.npm"], ["npm", "ci"]),
    Preset("yarn.lock", ["/usr/local/share/.cache/yarn", "/root/.cache/yarn"],
           ["yarn", "install", "--frozen-lockfile"]),
    Preset("pnpm-lock.yaml", ["/root/.local/share/pnpm/store"], ["pnpm", "install", "--frozen-lockfile"]),
    Preset("requirements.txt", ["/root/.cache/pip"],
           ["pip", "download", "-r", "requirements.txt", "-d", "/tmp/poll-ci-pip"]),
    Preset("poetry.lock", ["/root/.cache/pypoetry", "/root/.cache/pip"],
           ["poetry", "install", "--no-root", "--no-interaction"]),
    Preset("Cargo.lock", ["/root/.cargo/registry", "/root/.cargo/git"], ["cargo", "fetch"])]

  const ECOSYSTEMS := 7

  function ArgvOf(i: nat): seq<string>
    requires i < ECOSYSTEMS
  {
    PRESETS[i].argv
  }

  function PathsOf(i: nat): seq<string>
    requires i < ECOSYSTEMS
  {
    PRESETS[i].paths
  }

  /** `strings.Join`. */
  function Join(parts: seq<string>, sep: string): string {
    if parts == [] then "" else if |parts| == 1 then parts[0]
    else Join(parts[..|parts| - 1], sep) + sep + parts[|parts| - 1]
  }

  /** The command as the table has it: words separated by single spaces. */
  function Cmd(argv: seq<string>): string { Join(argv, " ") }

  /** One module to prime: its directory and its command. */
  datatype Item = Item(dir: string, argv: seq<string>)

  function Text(item: Item): string {
    if item.dir == "." then Cmd(item.argv) + " || true"
    else "(cd " + ShQuote(item.dir) + " && " + Cmd(item.argv) + ") || true"
  }

  function Script(items: seq<Item>): string {
    Join(seq(|items|, i requires 0 <= i < |items| => Text(items[i])), "; ")
  }

  // ----- reading it back -----

  predicate SafeWord(s: string) { s != "" && forall i | 0 <= i < |s| :: Safe(s[i]) }

  predicate SafeArgv(argv: seq<string>) { argv != [] && forall i | 0 <= i < |argv| :: SafeWord(argv[i]) }

  function WordTokens(argv: seq<string>): seq<Token> {
    seq(|argv|, i requires 0 <= i < |argv| => Word(argv[i]))
  }

  function ItemTokens(item: Item): seq<Token> {
    (if item.dir == "." then WordTokens(item.argv)
     else [Open, Word("cd"), Word(item.dir), AndIf] + WordTokens(item.argv) + [Close])
    + [OrIf, Word("true")]
  }

  function ScriptTokens(items: seq<Item>): seq<Token> {
    if items == [] then [] else if |items| == 1 then ItemTokens(items[0])
    else ItemTokens(items[0]) + [Semi] + ScriptTokens(items[1..])
  }

  /** The guarded command one module stands for, in its own directory. */
  function Guarded(item: Item): Command {
    Or(if item.dir == "." then Simple(item.argv)
       else Subshell([And(Simple(["cd", item.dir]), Simple(item.argv))]),
       Simple(["true"]))
  }

  function AllGuarded(items: seq<Item>): seq<Command> {
    seq(|items|, i requires 0 <= i < |items| => Guarded(items[i]))
  }

  lemma {:induction false} SafeIsLiteral(l: Lexer, s: string)
    requires l.mode == Unquoted && SafeWord(s)
    ensures ReadAll(l, s) == l.(word := Some(Collected(l) + s))
    decreases |s|
  {
    var next := Extend(l, s[0]);
    assert s == [s[0]] + s[1..] && Read(l, s[0]) == next;
    assert Collected(next) + s[1..] == Collected(l) + s;
    if s[1..] != "" {
      SafeIsLiteral(next, s[1..]);
    } else {
      assert ReadAll(next, s[1..]) == next && Collected(next) + s[1..] == Collected(next);
    }
  }

  /** Reading words separated by spaces, with no word begun before. */
  lemma {:induction false} CmdReads(l: Lexer, argv: seq<string>)
    requires l.mode == Unquoted && l.word.None? && SafeArgv(argv)
    ensures var r := ReadAll(l, Cmd(argv));
            r.mode == Unquoted && r.word == Some(argv[|argv| - 1])
            && r.tokens == l.tokens + WordTokens(argv[..|argv| - 1])
  {
    var n := |argv| - 1;
    if n == 0 {
      SafeIsLiteral(l, argv[0]);
      assert argv[..0] == [] && l.tokens + WordTokens([]) == l.tokens && "" + argv[0] == argv[0];
    } else {
      var front := argv[..n];
      CmdReads(l, front);
      var r := ReadAll(l, Cmd(front));
      ReadConcat(l, Cmd(front) + " ", argv[n]);
      ReadConcat(l, Cmd(front), " ");
      ReadOne(r, ' ');
      SafeIsLiteral(Delimit(r), argv[n]);
      assert "" + argv[n] == argv[n] && Cmd(argv) == Cmd(front) + " " + argv[n];
      assert front[..n - 1] + [front[n - 1]] == front;
      assert WordTokens(front) == WordTokens(front[..n - 1]) + [Word(front[n - 1])];
    }
  }

  lemma ReadOne(l: Lexer, c: char)
    ensures ReadAll(l, [c]) == Read(l, c)
  {
    assert [c][1..] == "";
  }

  lemma ReadNext(l: Lexer, s: string)
    requires s != ""
    ensures ReadAll(l, s) == ReadAll(Read(l, s[0]), s[1..])
  {
  }

  /** Reading an operator between spaces. */
  lemma OperatorReads(l: Lexer, t: Token)
    requires l.mode == Unquoted && (t == AndIf || t == OrIf)
    ensures ReadAll(l, if t == AndIf then " && " else " || ") == Operator(l, t)
  {
    var d, two := Delimit(l), if t == AndIf then "&& " else "|| ";
    assert two[1..][1..] == " " && two[0] == two[1] == (if t == AndIf then '&' else '|');
    assert Read(l, ' ') == d;
    assert Read(Read(d, two[0]), two[1]) == Operator(l, t);
    assert Read(Operator(l, t), ' ') == Operator(l, t);
    hide Read;
    ReadOne(Operator(l, t), ' ');
    ReadNext(Read(d, two[0]), two[1..]);
    ReadNext(d, two);
    ReadNext(l, [' '] + two);
    assert ([' '] + two)[1..] == two && (" " + two) == (if t == AndIf then " && " else " || ");
  }

  lemma PunctuationReads(l: Lexer)
    requires l.mode == Unquoted
    ensures ReadAll(l, " ") == Delimit(l)
    ensures ReadAll(l, "(") == Operator(l, Open)
    ensures ReadAll(l, ")") == Operator(l, Close)
  {
    ReadOne(l, ' ');
    ReadOne(l, '(');
    ReadOne(l, ')');
  }

  lemma TrueReads(l: Lexer)
    requires l.mode == Unquoted && l.word.None?
    ensures ReadAll(l, "true") == l.(word := Some("true"))
  {
    SafeIsLiteral(l, "true");
    assert "" + "true" == "true";
  }

  lemma GuardReads(l: Lexer)
    requires l.mode == Unquoted
    ensures var r := ReadAll(l, " || true");
            r.mode == Unquoted && Delimit(r) == Delimit(l).(tokens := Delimit(l).tokens + [OrIf, Word("true")])
  {
    hide ReadAll, Read;
    assert " || " + "true" == " || true";
    ReadConcat(l, " || ", "true");
    OperatorReads(l, OrIf);
    TrueReads(Operator(l, OrIf));
    assert Delimit(l).tokens + [OrIf] + [Word("true")] == Delimit(l).tokens + [OrIf, Word("true")];
  }

  /** "(cd ", read with no word begun. */
  lemma CdReads(l: Lexer)
    requires l.mode == Unquoted && l.word.None?
    ensures ReadAll(l, "(cd ") == l.(tokens := l.tokens + [Open, Word("cd")])
  {
    hide ReadAll, Read;
    var inside := Operator(l, Open);
    assert "(" + "cd" + " " == "(cd ";
    ReadConcat(l, "(" + "cd", " ");
    ReadConcat(l, "(", "cd");
    PunctuationReads(l);
    SafeIsLiteral(inside, "cd");
    assert "" + "cd" == "cd";
    PunctuationReads(inside.(word := Some("cd")));
    assert l.tokens + [Open] + [Word("cd")] == l.tokens + [Open, Word("cd")];
  }

  /** The subshell of a module below the root, up to its closing parenthesis. */
  lemma SubshellReads(l: Lexer, dir: string, argv: seq<string>)
    requires l.mode == Unquoted && l.word.None? && SafeArgv(argv)
    ensures ReadAll(l, "(cd " + ShQuote(dir) + " && " + Cmd(argv) + ")") ==
            l.(tokens := l.tokens + ([Open, Word("cd"), Word(dir), AndIf] + WordTokens(argv) + [Close]))
  {
    hide ReadAll, Read, Cmd, ShQuote;
    var a, b, c := "(cd ", ShQuote(dir), Cmd(argv);
    ReadConcat(l, a + b + " && " + c, ")");
    ReadConcat(l, a + b + " && ", c);
    ReadConcat(l, a + b, " && ");
    ReadConcat(l, a, b);
    CdReads(l);
    var one := ReadAll(l, a);
    QuoteIsLiteral(one, dir);
    assert "" + dir == dir;
    var two := ReadAll(l, a + b);
    OperatorReads(two, AndIf);
    var three := ReadAll(l, a + b + " && ");
    CmdReads(three, argv);
    var four := ReadAll(l, a + b + " && " + c);
    PunctuationReads(four);
    var n := |argv| - 1;
    assert argv[..n] + [argv[n]] == argv && WordTokens(argv) == WordTokens(argv[..n]) + [Word(argv[n])];
    assert three.tokens == l.tokens + [Open, Word("cd"), Word(dir), AndIf];
    assert Operator(four, Close).tokens == l.tokens + [Open, Word("cd"), Word(dir), AndIf] + WordTokens(argv) + [Close];
  }

  /** One module's text is read as its tokens. */
  lemma ItemReads(l: Lexer, item: Item)
    requires l.mode == Unquoted && l.word.None? && SafeArgv(item.argv)
    ensures var r := ReadAll(l, Text(item));
            r.mode == Unquoted && Delimit(r) == l.(tokens := l.tokens + ItemTokens(item))
  {
    hide Cmd, ShQuote, ReadAll, Read;
    var n := |item.argv| - 1;
    if item.dir == "." {
      ReadConcat(l, Cmd(item.argv), " || true");
      CmdReads(l, item.argv);
      GuardReads(ReadAll(l, Cmd(item.argv)));
      assert item.argv[..n] + [item.argv[n]] == item.argv;
      assert WordTokens(item.argv) == WordTokens(item.argv[..n]) + [Word(item.argv[n])];
      assert l.tokens + WordTokens(item.argv) + [OrIf, Word("true")] == l.tokens + ItemTokens(item);
    } else {
      var front := "(cd " + ShQuote(item.dir) + " && " + Cmd(item.argv);
      assert front + ") || true" == front + ")" + " || true";
      ReadConcat(l, front + ")", " || true");
      SubshellReads(l, item.dir, item.argv);
      GuardReads(ReadAll(l, front + ")"));
      var sub := [Open, Word("cd"), Word(item.dir), AndIf] + WordTokens(item.argv) + [Close];
      assert l.tokens + sub + [OrIf, Word("true")] == l.tokens + (sub + [OrIf, Word("true")]);
    }
  }

  /** Adding a module to a script. */
  lemma ScriptGrows(items: seq<Item>, item: Item)
    requires items != []
    ensures Script(items + [item]) == Script(items) + "; " + Text(item)
    ensures ScriptTokens(items + [item]) == ScriptTokens(items) + [Semi] + ItemTokens(item)
  {
    hide Text, ScriptTokens, ItemTokens;
    var all := items + [item];
    var texts := seq(|all|, i requires 0 <= i < |all| => Text(all[i]));
    assert texts[..|items|] == seq(|items|, i requires 0 <= i < |items| => Text(items[i]));
    TokensGrow(items, item);
  }

  lemma {:induction false} TokensGrow(items: seq<Item>, item: Item)
    requires items != []
    ensures ScriptTokens(items + [item]) == ScriptTokens(items) + [Semi] + ItemTokens(item)
  {
    hide ItemTokens;
    var all := items + [item];
    assert all[1..] == items[1..] + [item] && all[0] == items[0];
    if |items| > 1 {
      TokensGrow(items[1..], item);
    } else {
      assert items[1..] + [item] == [item];
      assert ScriptTokens([item]) == ItemTokens(item);
    }
  }

  lemma {:induction false} ScriptReads(items: seq<Item>)
    requires items != [] && forall i | 0 <= i < |items| :: SafeArgv(items[i].argv)
    ensures var r := ReadAll(START, Script(items));
            r.mode == Unquoted && Delimit(r) == START.(tokens := ScriptTokens(items))
  {
    hide Text, ItemTokens, ReadAll, Read;
    var n := |items| - 1;
    if n == 0 {
      ItemReads(START, items[0]);
      assert Script(items) == Text(items[0]);
      assert [] + ItemTokens(items[0]) == ItemTokens(items[0]);
    } else {
      var front := items[..n];
      ScriptReads(front);
      assert items == front + [items[n]];
      ScriptGrows(front, items[n]);
      var r := ReadAll(START, Script(front));
      SeparatorReads(r);
      ReadConcat(START, Script(front) + "; ", Text(items[n]));
      ReadConcat(START, Script(front), "; ");
      ItemReads(Operator(r, Semi), items[n]);
      assert ScriptTokens(front) + [Semi] + ItemTokens(items[n]) == ScriptTokens(items);
    }
  }

  lemma SeparatorReads(l: Lexer)
    requires l.mode == Unquoted
    ensures ReadAll(l, "; ") == Operator(l, Semi)
  {
    assert "; "[1..] == " ";
    ReadOne(Operator(l, Semi), ' ');
  }

  // ----- parsing it back -----

  lemma {:induction false} WordsParse(argv: seq<string>, rest: seq<Token>)
    requires rest == [] || !rest[0].Word?
    ensures Words(WordTokens(argv) + rest) == Parse.Parse(argv, rest)
  {
    var ts := WordTokens(argv) + rest;
    if argv == [] {
      assert ts == rest;
    } else {
      WordsParse(argv[1..], rest);
      assert ts[0] == Word(argv[0]) && ts[1..] == WordTokens(argv[1..]) + rest;
      assert [argv[0]] + argv[1..] == argv;
    }
  }

  lemma SimpleParses(argv: seq<string>, rest: seq<Token>)
    requires argv != [] && (rest == [] || !rest[0].Word?)
    ensures Primary(WordTokens(argv) + rest) == Some(Parse.Parse(Simple(argv), rest))
  {
    WordsParse(argv, rest);
    assert (WordTokens(argv) + rest)[0] == Word(argv[0]);
  }

  /** `left || true`, and then whatever follows. */
  lemma GuardParses(left: Command, rest: seq<Token>)
    requires rest == [] || rest[0].Semi?
    ensures Chain(left, [OrIf, Word("true")] + rest) == Some(Parse.Parse(Or(left, Simple(["true"])), rest))
  {
    var ts := [OrIf, Word("true")] + rest;
    assert ts[1..] == WordTokens(["true"]) + rest;
    SimpleParses(["true"], rest);
  }

  /** The inside of a subshell, up to its closing parenthesis. */
  lemma CdParses(dir: string, argv: seq<string>, rest: seq<Token>)
    requires argv != [] && rest != [] && rest[0].Close?
    ensures List([Word("cd"), Word(dir), AndIf] + WordTokens(argv) + rest) ==
            Some(Parse.Parse([And(Simple(["cd", dir]), Simple(argv))], rest))
  {
    var ts := [Word("cd"), Word(dir), AndIf] + WordTokens(argv) + rest;
    var tail := [AndIf] + (WordTokens(argv) + rest);
    assert ts == WordTokens(["cd", dir]) + tail;
    SimpleParses(["cd", dir], tail);
    assert tail[1..] == WordTokens(argv) + rest;
    SimpleParses(argv, rest);
    var left, right := Simple(["cd", dir]), Simple(argv);
    assert Chain(And(left, right), rest) == Some(Parse.Parse(And(left, right), rest));
    assert Chain(left, tail) == Some(Parse.Parse(And(left, right), rest));
    assert AndOr(ts) == Some(Parse.Parse(And(left, right), rest));
  }

  lemma SubshellParses(dir: string, argv: seq<string>, rest: seq<Token>)
    requires argv != []
    ensures Primary([Open, Word("cd"), Word(dir), AndIf] + WordTokens(argv) + [Close] + rest) ==
            Some(Parse.Parse(Subshell([And(Simple(["cd", dir]), Simple(argv))]), rest))
  {
    var ts := [Open, Word("cd"), Word(dir), AndIf] + WordTokens(argv) + [Close] + rest;
    var closing := [Close] + rest;
    assert ts[1..] == [Word("cd"), Word(dir), AndIf] + WordTokens(argv) + closing;
    CdParses(dir, argv, closing);
    assert closing[1..] == rest;
  }

  lemma ItemParses(item: Item, rest: seq<Token>)
    requires item.argv != [] && (rest == [] || rest[0].Semi?)
    ensures AndOr(ItemTokens(item) + rest) == Some(Parse.Parse(Guarded(item), rest))
  {
    hide Primary, Chain;
    var guard := [OrIf, Word("true")] + rest;
    var left := if item.dir == "." then Simple(item.argv)
                else Subshell([And(Simple(["cd", item.dir]), Simple(item.argv))]);
    if item.dir == "." {
      assert ItemTokens(item) + rest == WordTokens(item.argv) + guard;
      SimpleParses(item.argv, guard);
    } else {
      assert ItemTokens(item) + rest ==
             [Open, Word("cd"), Word(item.dir), AndIf] + WordTokens(item.argv) + [Close] + guard;
      SubshellParses(item.dir, item.argv, guard);
    }
    GuardParses(left, rest);
  }

  lemma {:induction false} ScriptParses(items: seq<Item>)
    requires items != [] && forall i | 0 <= i < |items| :: items[i].argv != []
    ensures List(ScriptTokens(items)) == Some(Parse.Parse(AllGuarded(items), []))
  {
    hide AndOr, ItemTokens, Guarded;
    if |items| == 1 {
      ItemParses(items[0], []);
      assert ItemTokens(items[0]) + [] == ItemTokens(items[0]);
      assert AllGuarded(items) == [Guarded(items[0])];
    } else {
      var rest := [Semi] + ScriptTokens(items[1..]);
      ItemParses(items[0], rest);
      assert ScriptTokens(items) == ItemTokens(items[0]) + rest && rest[1..] == ScriptTokens(items[1..]);
      ScriptParses(items[1..]);
      assert AllGuarded(items) == [Guarded(items[0])] + AllGuarded(items[1..]);
    }
  }

  /** Print/parse round trip: whatever the directories are called, the joined script is
      read by the shell as exactly one guarded command per module, each in its own
      directory, in order. */
  lemma ScriptRoundTrip(items: seq<Item>)
    requires forall i | 0 <= i < |items| :: SafeArgv(items[i].argv)
    ensures ParseScript(Script(items)) == Some(AllGuarded(items))
  {
    if items != [] {
      ScriptReads(items);
      ScriptParses(items);
      TokensNonEmpty(items);
    } else {
      assert Script(items) == "" && AllGuarded(items) == [];
      assert Lex("") == Some([]);
    }
  }

  lemma TokensNonEmpty(items: seq<Item>)
    requires items != []
    ensures ScriptTokens(items) != []
  {
  }

  // ----- the plan -----

  /** A marker file the walk found: its ecosystem, its directory and its path. */
  datatype Found = Found(preset: nat, dir: string, rel: string)

  datatype Plan = Plan(paths: seq<string>, prime: string, markers: seq<string>)

  /** cache.go `dedupe`: first occurrences, in order. */
  function Firsts(s: seq<string>): seq<string> {
    if s == [] then [] else
      var n := |s| - 1;
      Firsts(s[..n]) + if s[n] in s[..n] then [] else [s[n]]
  }

  method Dedupe(s: seq<string>) returns (out: seq<string>)
    ensures out == Firsts(s)
  {
    var seen: set<string> := {};
    out := [];
    for i := 0 to |s|
      invariant out == Firsts(s[..i]) && forall x :: x in seen <==> x in s[..i]
    {
      assert s[..i + 1][..i] == s[..i];
      if s[i] !in seen {
        seen := seen + {s[i]};
        out := out + [s[i]];
      }
    }
    assert s[..|s|] == s;
  }

  /** Every element once, and nothing else. */
  lemma {:induction false} FirstsExact(s: seq<string>)
    ensures forall x :: x in Firsts(s) <==> x in s
    ensures forall i, j | 0 <= i < j < |Firsts(s)| :: Firsts(s)[i] != Firsts(s)[j]
  {
    if s != [] {
      var n := |s| - 1;
      FirstsExact(s[..n]);
      assert forall x :: x in s <==> x in s[..n] || x == s[n];
    }
  }

  predicate FromTable(found: seq<Found>) { forall i | 0 <= i < |found| :: found[i].preset < ECOSYSTEMS }

  /** The modules of one ecosystem, in walk order. */
  function ItemsOf(found: seq<Found>, preset: nat): seq<Item>
    requires preset < ECOSYSTEMS
  {
    if found == [] then [] else
      var last := found[|found| - 1];
      ItemsOf(found[..|found| - 1], preset)
      + if last.preset == preset then [Item(last.dir, ArgvOf(preset))] else []
  }

  /** All modules: ecosystems in table order, each in walk order. */
  function ItemsUpTo(found: seq<Found>, n: nat): seq<Item>
    requires n <= ECOSYSTEMS
  {
    if n == 0 then [] else ItemsUpTo(found, n - 1) + ItemsOf(found, n - 1)
  }

  function PathsUpTo(found: seq<Found>, n: nat): seq<string>
    requires n <= ECOSYSTEMS
  {
    if n == 0 then [] else
      PathsUpTo(found, n - 1) + if ItemsOf(found, n - 1) == [] then [] else PathsOf(n - 1)
  }

  /** One ecosystem's entry of `dirsFor`, as the walk fills it. */
  method ModulesOf(found: seq<Found>, preset: nat) returns (mine: seq<Item>)
    requires preset < ECOSYSTEMS
    ensures mine == ItemsOf(found, preset)
  {
    hide ArgvOf;
    mine := [];
    for i := 0 to |found|
      invariant mine == ItemsOf(found[..i], preset)
    {
      assert found[..i + 1][..i] == found[..i];
      if found[i].preset == preset { mine := mine + [Item(found[i].dir, ArgvOf(preset))]; }
    }
    assert found[..|found|] == found;
  }

  lemma {:induction false} SomeItem(found: seq<Found>, preset: nat)
    requires preset < ECOSYSTEMS
    ensures ItemsOf(found, preset) != [] <==> exists i :: 0 <= i < |found| && found[i].preset == preset
  {
    if found != [] {
      var n := |found| - 1;
      SomeItem(found[..n], preset);
      assert forall i | 0 <= i < n :: found[..n][i] == found[i];
    }
  }

  /** The plan caches the paths of exactly the ecosystems with a marker. */
  lemma {:induction false} PathsExactly(found: seq<Found>, n: nat, x: string)
    requires n <= ECOSYSTEMS && FromTable(found)
    ensures x in PathsUpTo(found, n) <==>
            exists i :: 0 <= i < |found| && found[i].preset < n && x in PathsOf(found[i].preset)
  {
    hide PathsOf, ItemsOf;
    if n > 0 {
      PathsExactly(found, n - 1, x);
      SomeItem(found, n - 1);
    }
  }

  /** What detectCachePlan makes of the markers its walk found. */
  method DetectPlan(found: seq<Found>) returns (plan: Plan)
    requires FromTable(found)
    ensures plan.markers == seq(|found|, i requires 0 <= i < |found| => found[i].rel)
    ensures forall x :: x in plan.paths <==> exists i :: 0 <= i < |found| && x in PathsOf(found[i].preset)
    ensures forall i, j | 0 <= i < j < |plan.paths| :: plan.paths[i] != plan.paths[j]
    ensures plan.prime == Script(ItemsUpTo(found, ECOSYSTEMS))
  {
    hide ArgvOf, PathsOf, Script, Firsts;
    var items: seq<Item> := [];
    var paths: seq<string> := [];
    for p := 0 to ECOSYSTEMS
      invariant items == ItemsUpTo(found, p) && paths == PathsUpTo(found, p)
    {
      var mine := ModulesOf(found, p);
      hide ItemsOf;
      if mine != [] { paths := paths + PathsOf(p); }
      items := items + mine;
    }
    var unique := Dedupe(paths);
    FirstsExact(paths);
    forall x ensures x in paths <==> exists i :: 0 <= i < |found| && x in PathsOf(found[i].preset) {
      PathsExactly(found, ECOSYSTEMS, x);
    }
    hide PathsUpTo, ItemsUpTo;
    plan := Plan(unique, Script(items), seq(|found|, i requires 0 <= i < |found| => found[i].rel));
  }

  /** What one marker asks for. */
  function ItemFor(f: Found): Item
    requires f.preset < ECOSYSTEMS
  {
    Item(f.dir, ArgvOf(f.preset))
  }

  function ItemsInWalkOrder(found: seq<Found>, n: nat): seq<Item>
    requires n <= ECOSYSTEMS && FromTable(found)
  {
    if found == [] then [] else
      var last := found[|found| - 1];
      ItemsInWalkOrder(found[..|found| - 1], n) + if last.preset < n then [ItemFor(last)] else []
  }

  lemma {:induction false} OneMoreEcosystem(found: seq<Found>, n: nat)
    requires n < ECOSYSTEMS && FromTable(found)
    ensures multiset(ItemsInWalkOrder(found, n + 1)) ==
            multiset(ItemsInWalkOrder(found, n)) + multiset(ItemsOf(found, n))
  {
    if found != [] { OneMoreEcosystem(found[..|found| - 1], n); }
  }

  lemma {:induction false} NothingBelowZero(found: seq<Found>)
    requires FromTable(found)
    ensures ItemsInWalkOrder(found, 0) == []
  {
    if found != [] { NothingBelowZero(found[..|found| - 1]); }
  }

  lemma ItemsUpToGrows(found: seq<Found>, n: nat)
    requires 0 < n <= ECOSYSTEMS
    ensures multiset(ItemsUpTo(found, n)) == multiset(ItemsUpTo(found, n - 1)) + multiset(ItemsOf(found, n - 1))
  {
    hide ItemsOf;
    assert ItemsUpTo(found, n) == ItemsUpTo(found, n - 1) + ItemsOf(found, n - 1);
  }

  lemma NoEcosystemNoItem(found: seq<Found>)
    ensures ItemsUpTo(found, 0) == []
  {
  }

  /** One module to prime per marker, no more and no less. */
  lemma {:induction false} OneItemPerMarker(found: seq<Found>, n: nat)
    requires n <= ECOSYSTEMS && FromTable(found)
    ensures multiset(ItemsUpTo(found, n)) == multiset(ItemsInWalkOrder(found, n))
  {
    hide ItemsOf, ItemsInWalkOrder, ItemsUpTo;
    if n > 0 {
      OneItemPerMarker(found, n - 1);
      OneMoreEcosystem(found, n - 1);
      ItemsUpToGrows(found, n);
    } else {
      NothingBelowZero(found);
      NoEcosystemNoItem(found);
    }
  }

  lemma ShortWordsAreSafe()
    ensures SafeWord("go") && SafeWord("mod") && SafeWord("npm") && SafeWord("ci") && SafeWord("yarn")
    ensures SafeWord("pnpm") && SafeWord("pip") && SafeWord("-r") && SafeWord("-d") && SafeWord("cargo")
    ensures SafeWord("fetch") && SafeWord("poetry") && SafeWord("install") && SafeWord("download")
  {
  }

  lemma LongWordsAreSafe()
    ensures SafeWord("--frozen-lockfile") && SafeWord("requirements.txt")
    ensures SafeWord("/tmp/poll-ci-pip") && SafeWord("--no-root") && SafeWord("--no-interaction")
  {
  }

  lemma PresetsAreSafe(i: nat)
    requires i < ECOSYSTEMS
    ensures SafeArgv(ArgvOf(i))
  {
    hide SafeWord;
    ShortWordsAreSafe();
    LongWordsAreSafe();
  }

  lemma {:induction false} ItemsOfAreSafe(found: seq<Found>, preset: nat)
    requires preset < ECOSYSTEMS
    ensures forall k | 0 <= k < |ItemsOf(found, preset)| :: SafeArgv(ItemsOf(found, preset)[k].argv)
  {
    PresetsAreSafe(preset);
    if found != [] { ItemsOfAreSafe(found[..|found| - 1], preset); }
  }

  lemma {:induction false} ItemsAreSafe(found: seq<Found>, n: nat)
    requires n <= ECOSYSTEMS
    ensures forall k | 0 <= k < |ItemsUpTo(found, n)| :: SafeArgv(ItemsUpTo(found, n)[k].argv)
  {
    if n > 0 {
      ItemsAreSafe(found, n - 1);
      ItemsOfAreSafe(found, n - 1);
    }
  }

  /** The prime script of a detected plan is read back as exactly one guarded command
      per marker found, in the marker's own directory with its ecosystem's command. */
  lemma PrimeRunsEveryMarkerOnce(found: seq<Found>)
    requires FromTable(found)
    ensures ParseScript(Script(ItemsUpTo(found, ECOSYSTEMS))) == Some(AllGuarded(ItemsUpTo(found, ECOSYSTEMS)))
    ensures multiset(ItemsUpTo(found, ECOSYSTEMS)) == multiset(ItemsInWalkOrder(found, ECOSYSTEMS))
    ensures |ItemsUpTo(found, ECOSYSTEMS)| == |found|
    ensures |ItemsInWalkOrder(found, ECOSYSTEMS)| == |found|
    ensures forall i | 0 <= i < |found| ::
              ItemsInWalkOrder(found, ECOSYSTEMS)[i] == Item(found[i].dir, PRESETS[found[i].preset].argv)
  {
    ItemsAreSafe(found, ECOSYSTEMS);
    ScriptRoundTrip(ItemsUpTo(found, ECOSYSTEMS));
    OneItemPerMarker(found, ECOSYSTEMS);
    WalkOrderIsComplete(found);
    assert |multiset(ItemsUpTo(found, ECOSYSTEMS))| == |multiset(ItemsInWalkOrder(found, ECOSYSTEMS))|;
  }

  lemma {:induction false} WalkOrderIsComplete(found: seq<Found>)
    requires FromTable(found)
    ensures |ItemsInWalkOrder(found, ECOSYSTEMS)| == |found|
    ensures forall i | 0 <= i < |found| :: ItemsInWalkOrder(found, ECOSYSTEMS)[i] == ItemFor(found[i])
  {
    if found != [] { WalkOrderIsComplete(found[..|found| - 1]); }
  }
}
