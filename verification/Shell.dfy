/** The part of the POSIX shell grammar that prime scripts are written in. Quoting
    follows POSIX.1-2017 XCU sections 2.2.1 (escape character) and 2.2.2 (single quotes),
    tokens section 2.3, and commands section 2.9; any other unquoted metacharacter makes
    the text unreadable here. */
module Shell {
  import opened Common
  import Scrub

  datatype Token = Word(text: string) | Semi | AndIf | OrIf | Open | Close

  datatype Mode = Unquoted | SingleQuoted | Escaped | Ampersand | Bar | Unreadable

  /** The tokens delimited so far and the word being collected, if one has begun. */
  datatype Lexer = Lexer(tokens: seq<Token>, word: Option<string>, mode: Mode)

  const START := Lexer([], None, Unquoted)

  /** Characters that stand for themselves outside quotes. */
  predicate Safe(c: char) {
    'a' <= c <= 'z' || 'A' <= c <= 'Z' || '0' <= c <= '9' || c == '-' || c == '_' || c == '.' || c == '/'
  }

  function Extend(l: Lexer, c: char): Lexer {
    l.(word := Some((if l.word.Some? then l.word.value else "") + [c]))
  }

  function Delimit(l: Lexer): Lexer {
    if l.word.Some? then l.(tokens := l.tokens + [Word(l.word.value)], word := None) else l
  }

  function Operator(l: Lexer, t: Token): Lexer {
    Delimit(l).(tokens := Delimit(l).tokens + [t], mode := Unquoted)
  }

  function Read(l: Lexer, c: char): Lexer {
    match l.mode
    case SingleQuoted => if c == '\'' then l.(mode := Unquoted) else Extend(l, c)
    case Escaped => if c == '\n' then l.(mode := Unquoted) else Extend(l, c).(mode := Unquoted)
    case Ampersand => if c == '&' then Operator(l, AndIf) else l.(mode := Unreadable)
    case Bar => if c == '|' then Operator(l, OrIf) else l.(mode := Unreadable)
    case Unreadable => l
    case Unquoted =>
      if Safe(c) then Extend(l, c)
      else if c == '\'' then l.(word := Some(if l.word.Some? then l.word.value else ""), mode := SingleQuoted)
      else if c == '\\' then l.(mode := Escaped)
      else if c == ' ' then Delimit(l)
      else if c == ';' then Operator(l, Semi)
      else if c == '(' then Operator(l, Open)
      else if c == ')' then Operator(l, Close)
      else if c == '&' then Delimit(l).(mode := Ampersand)
      else if c == '|' then Delimit(l).(mode := Bar)
      else l.(mode := Unreadable)
  }

  function ReadAll(l: Lexer, s: string): Lexer
    decreases |s|
  {
    if s == "" then l else ReadAll(Read(l, s[0]), s[1..])
  }

  function Lex(s: string): Option<seq<Token>> {
    var l := ReadAll(START, s);
    if l.mode == Unquoted then Some(Delimit(l).tokens) else None
  }

  lemma {:induction false} ReadConcat(l: Lexer, a: string, b: string)
    ensures ReadAll(l, a + b) == ReadAll(ReadAll(l, a), b)
    decreases |a|
  {
    if a == "" {
      assert a + b == b;
    } else {
      ReadConcat(Read(l, a[0]), a[1..], b);
      assert (a + b)[1..] == a[1..] + b;
    }
  }

  // ----- quoting -----

  /** cache.go `shQuote`. */
  function ShQuote(s: string): string { "'" + Scrub.ReplaceAll(s, "'", "'\\''") + "'" }

  /** The word collected so far. */
  function Collected(l: Lexer): string { if l.word.Some? then l.word.value else "" }

  /** Leaving the quotes for an escaped quote and coming back adds just that quote. */
  lemma QuoteBreak(l: Lexer)
    requires l.mode == SingleQuoted && l.word.Some?
    ensures ReadAll(l, "'\\''") == Extend(l, '\'')
  {
    var s := "'\\''";
    assert s[1..][0] == '\\' && s[1..][1..][0] == '\'' && s[1..][1..][1..] == "'" && s[1..][1..][1..][1..] == "";
    var one := Read(l, '\'');
    var two := Read(one, '\\');
    var three := Read(two, '\'');
    assert Read(three, '\'') == Extend(l, '\'');
    assert ReadAll(three, "'") == Read(three, '\'');
    assert ReadAll(two, s[1..][1..]) == ReadAll(three, s[1..][1..][1..]);
    assert ReadAll(one, s[1..]) == ReadAll(two, s[1..][1..]);
  }

  lemma {:induction false} EscapedIsLiteral(l: Lexer, s: string)
    requires l.mode == SingleQuoted && l.word.Some?
    ensures ReadAll(l, Scrub.ReplaceAll(s, "'", "'\\''")) == l.(word := Some(l.word.value + s))
    decreases |s|
  {
    if s == "" {
      assert l.word.value + s == l.word.value;
    } else {
      var rest := Scrub.ReplaceAll(s[1..], "'", "'\\''");
      var next := Extend(l, s[0]);
      assert l.word.value + [s[0]] + s[1..] == l.word.value + s;
      EscapedIsLiteral(next, s[1..]);
      if s[..1] == "'" {
        assert s[0] == '\'';
        QuoteBreak(l);
        ReadConcat(l, "'\\''", rest);
      } else {
        assert s[..1] == [s[0]];
        assert s[0] != '\'';
        assert ([s[0]] + rest)[1..] == rest;
      }
    }
  }

  /** For every string, quoting it is read, from an unquoted state, as that string added
      literally to the current word, and leaves the shell unquoted. */
  lemma QuoteIsLiteral(l: Lexer, s: string)
    requires l.mode == Unquoted
    ensures ReadAll(l, ShQuote(s)) == l.(word := Some(Collected(l) + s))
  {
    var body := Scrub.ReplaceAll(s, "'", "'\\''");
    var inside := Read(l, '\'');
    EscapedIsLiteral(inside, s);
    assert ShQuote(s) == "'" + (body + "'");
    ReadConcat(l, "'", body + "'");
    assert ReadAll(l, "'") == inside;
    ReadConcat(inside, body, "'");
    assert forall m: Lexer :: ReadAll(m, "'") == Read(m, '\'');
  }

  /** In any context: between `pre` and `post`, a quoted string contributes exactly itself. */
  lemma QuoteInContext(pre: string, s: string, post: string)
    requires ReadAll(START, pre).mode == Unquoted
    ensures var before := ReadAll(START, pre);
            ReadAll(START, pre + ShQuote(s) + post) ==
            ReadAll(before.(word := Some(Collected(before) + s)), post)
  {
    ReadConcat(START, pre + ShQuote(s), post);
    ReadConcat(START, pre, ShQuote(s));
    QuoteIsLiteral(ReadAll(START, pre), s);
  }

  // ----- commands -----

  datatype Command =
    | Simple(words: seq<string>)
    | Subshell(body: seq<Command>)
    | And(left: Command, right: Command)
    | Or(left: Command, right: Command)

  /** A parse: what was read, and the tokens that are left. */
  datatype Parse<T> = Parse(value: T, rest: seq<Token>)

  function Words(ts: seq<Token>): (p: Parse<seq<string>>)
    ensures |p.rest| + |p.value| == |ts|
  {
    if ts == [] || !ts[0].Word? then Parse([], ts)
    else var p := Words(ts[1..]); Parse([ts[0].text] + p.value, p.rest)
  }

  /** A simple command or a parenthesized list. */
  function Primary(ts: seq<Token>): (p: Option<Parse<Command>>)
    ensures p.Some? ==> |p.value.rest| < |ts|
    decreases |ts|, 0
  {
    if ts == [] then None
    else if ts[0].Open? then
      var body := List(ts[1..]);
      if body.Some? && body.value.rest != [] && body.value.rest[0].Close?
      then Some(Parse(Subshell(body.value.value), body.value.rest[1..])) else None
    else
      var w := Words(ts);
      if w.value == [] then None else Some(Parse(Simple(w.value), w.rest))
  }

  /** `&&` and `||` have equal precedence and associate to the left. */
  function AndOr(ts: seq<Token>): (p: Option<Parse<Command>>)
    ensures p.Some? ==> |p.value.rest| < |ts|
    decreases |ts|, 1
  {
    var first := Primary(ts);
    if first.Some? then Chain(first.value.value, first.value.rest) else None
  }

  function Chain(left: Command, ts: seq<Token>): (p: Option<Parse<Command>>)
    ensures p.Some? ==> |p.value.rest| <= |ts|
    decreases |ts|, 2
  {
    if ts == [] || !(ts[0].AndIf? || ts[0].OrIf?) then Some(Parse(left, ts))
    else
      var next := Primary(ts[1..]);
      if next.None? then None
      else Chain(if ts[0].AndIf? then And(left, next.value.value) else Or(left, next.value.value), next.value.rest)
  }

  /** Commands separated by semicolons. */
  function List(ts: seq<Token>): (p: Option<Parse<seq<Command>>>)
    ensures p.Some? ==> |p.value.rest| < |ts|
    decreases |ts|, 3
  {
    var first := AndOr(ts);
    if first.None? then None
    else if first.value.rest == [] || !first.value.rest[0].Semi? then Some(Parse([first.value.value], first.value.rest))
    else
      var others := List(first.value.rest[1..]);
      if others.None? then None else Some(Parse([first.value.value] + others.value.value, others.value.rest))
  }

  /** A whole script. */
  function ParseScript(s: string): Option<seq<Command>> {
    var tokens := Lex(s);
    if tokens.None? then None
    else if tokens.value == [] then Some([])
    else
      var p := List(tokens.value);
      if p.Some? && p.value.rest == [] then Some(p.value.value) else None
  }
}
