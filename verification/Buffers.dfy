/** util.go `tailBuffer` and `blockBuffer`. A character stands for one byte. */
module Buffers {

  /** The last `max` bytes of a text. */
  function Tail(max: nat, s: string): (r: string) {
    if |s| <= max then s else s[|s| - max..]
  }

  /** Cutting after every write loses nothing that cutting once at the end would keep. */
  lemma TailAppend(max: nat, s: string, p: string)
    ensures Tail(max, Tail(max, s) + p) == Tail(max, s + p)
  {
  }

  class TailBuffer {
    const max: nat
    var buf: string
    ghost var written: string

    ghost predicate Valid() reads this { buf == Tail(max, written) }

    constructor (max: nat)
      ensures Valid() && written == "" && this.max == max
    {
      this.max := max;
      buf, written := "", "";
    }

    method Write(p: string) returns (n: nat)
      requires Valid()
      modifies this
      ensures Valid() && written == old(written) + p && n == |p|
    {
      TailAppend(max, written, p);
      buf := buf + p;
      if |buf| > max { buf := buf[|buf| - max..]; }
      written := written + p;
      return |p|;
    }
  }

  /** What a reader of the engine's log can tell about a block buffer: everything written
      to it so far, and whether its block has been printed. */
  datatype View = View(written: string, flushed: bool)

  const NOTE := "...(output head truncated; see docker logs for the full log)\n"

  function Header(caption: string): string { "===== " + caption + " =====\n" }

  function Body(s: string): string { if s != "" && s[|s| - 1] != '\n' then s + "\n" else s }

  /** The block printed for everything that had been written. */
  function Block(max: nat, caption: string, written: string): string {
    Header(caption) + (if |written| > max then NOTE else "") + Body(Tail(max, written))
  }

  lemma BlockInParts(max: nat, caption: string, written: string)
    ensures var head := Header(caption);
            var noted := if |written| > max then head + NOTE else head;
            var tail := Tail(max, written);
            Block(max, caption, written) ==
            if tail != "" && tail[|tail| - 1] != '\n' then noted + tail + "\n" else noted + tail
  {
    hide Tail, Header;
  }

  class Writer {
    var text: string

    constructor ()
      ensures text == ""
    {
      text := "";
    }
  }

  class BlockBuffer {
    const max: nat
    var buf: string
    var truncated: bool
    var flushed: bool
    ghost var written: string

    ghost predicate Valid() reads this {
      buf == Tail(max, written) && (truncated <==> |written| > max)
    }

    ghost function AsView(): View reads this { View(written, flushed) }

    constructor (max: nat)
      ensures Valid() && AsView() == View("", false) && this.max == max
    {
      this.max := max;
      buf, truncated, flushed, written := "", false, false, "";
    }

    /** Under the mutex, so one write is one step. */
    method Write(p: string) returns (n: nat)
      requires Valid()
      modifies this
      ensures Valid() && n == |p|
      ensures AsView() == old(AsView()).(written := old(written) + p)
    {
      TailAppend(max, written, p);
      buf := buf + p;
      if |buf| > max {
        buf := buf[|buf| - max..];
        truncated := true;
      }
      written := written + p;
      return |p|;
    }

    method Flush(w: Writer, caption: string)
      requires Valid()
      modifies this, w
      ensures Valid() && AsView() == old(AsView()).(flushed := true)
      ensures w.text == old(w.text) + if old(flushed) then "" else Block(max, caption, old(written))
    {
      hide Tail;
      if flushed { return; }
      flushed := true;
      var sb := "===== " + caption + " =====\n";
      if truncated { sb := sb + NOTE; }
      sb := sb + buf;
      if |buf| > 0 && buf[|buf| - 1] != '\n' { sb := sb + "\n"; }
      BlockInParts(max, caption, written);
      assert sb == Block(max, caption, written);
      hide Block;
      w.text := w.text + sb;
    }
  }

  // ----- any interleaving of writes and flushes of any number of buffers -----

  datatype Op = Write(at: nat, p: string) | Flush(at: nat, caption: string)

  datatype Log = Log(views: map<nat, View>, text: string)

  function ViewAt(l: Log, i: nat): View { if i in l.views then l.views[i] else View("", false) }

  function Do(max: nat, l: Log, op: Op): Log {
    var v := ViewAt(l, op.at);
    match op
    case Write(i, p) => l.(views := l.views[i := v.(written := v.written + p)])
    case Flush(i, caption) =>
      Log(l.views[i := v.(flushed := true)],
          l.text + if v.flushed then "" else Block(max, caption, v.written))
  }

  function Run(max: nat, ops: seq<Op>): Log {
    if ops == [] then Log(map[], "") else Do(max, Run(max, ops[..|ops| - 1]), ops[|ops| - 1])
  }

  /** What was written to buffer i, whatever happened to the others in between. */
  function WrittenTo(i: nat, ops: seq<Op>): string {
    if ops == [] then "" else
      var op := ops[|ops| - 1];
      WrittenTo(i, ops[..|ops| - 1]) + if op.Write? && op.at == i then op.p else ""
  }

  predicate FlushedIn(i: nat, ops: seq<Op>) {
    exists k :: 0 <= k < |ops| && ops[k].Flush? && ops[k].at == i
  }

  /** The blocks of the first flushes, in the order of those flushes. */
  function Blocks(max: nat, ops: seq<Op>): string {
    if ops == [] then "" else
      var before, op := ops[..|ops| - 1], ops[|ops| - 1];
      Blocks(max, before) +
      if op.Flush? && !FlushedIn(op.at, before) then Block(max, op.caption, WrittenTo(op.at, before)) else ""
  }

  /** The log is a sequence of whole blocks, one per flushed buffer however often it is
      flushed, each showing what its own buffer had received when it was first flushed:
      parallel checks never interleave. */
  lemma {:induction false} LogIsWholeBlocks(max: nat, ops: seq<Op>, i: nat)
    ensures Run(max, ops).text == Blocks(max, ops)
    ensures ViewAt(Run(max, ops), i) == View(WrittenTo(i, ops), FlushedIn(i, ops))
  {
    if ops != [] {
      var n := |ops| - 1;
      LogIsWholeBlocks(max, ops[..n], i);
      LogIsWholeBlocks(max, ops[..n], ops[n].at);
      FlushedGrows(ops, i);
      hide Block, FlushedIn;
    }
  }

  lemma FlushedGrows(ops: seq<Op>, i: nat)
    requires ops != []
    ensures var n := |ops| - 1;
            FlushedIn(i, ops) <==> FlushedIn(i, ops[..n]) || (ops[n].Flush? && ops[n].at == i)
  {
    var n := |ops| - 1;
    if FlushedIn(i, ops[..n]) {
      var k :| 0 <= k < n && ops[..n][k].Flush? && ops[..n][k].at == i;
      assert ops[k] == ops[..n][k];
    }
    if FlushedIn(i, ops) {
      var k :| 0 <= k < |ops| && ops[k].Flush? && ops[k].at == i;
      assert k < n ==> ops[..n][k] == ops[k];
    }
  }

  predicate EndsLine(s: string) { s == "" || s[|s| - 1] == '\n' }

  /** Every block ends its last line, so each header starts a line of its own. */
  lemma {:induction false} HeadersStartLines(max: nat, ops: seq<Op>)
    ensures EndsLine(Run(max, ops).text)
  {
    if ops != [] {
      var n := |ops| - 1;
      HeadersStartLines(max, ops[..n]);
      hide Block;
      if ops[n].Flush? { BlockEndsLine(max, ops[n].caption, ViewAt(Run(max, ops[..n]), ops[n].at).written); }
    }
  }

  lemma BlockEndsLine(max: nat, caption: string, written: string)
    ensures Block(max, caption, written) != "" && EndsLine(Block(max, caption, written))
  {
    var tail := Body(Tail(max, written));
    assert EndsLine(tail) && EndsLine(NOTE) && EndsLine(Header(caption));
  }
}
