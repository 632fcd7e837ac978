/** A history file as bytes (chat/store.go, appendLog and loadLog): lines are written with a
    newline behind them, a write may be cut after any byte, and a reader takes what stands between
    newlines. The lines and endings of StoreModel are what the bytes come to. */
module ByteLog {
  import opened Wrappers
  import opened Messages
  import opened StoreModel
  import opened Journal

  const NEWLINE: Byte := 10

  /** How a line becomes bytes, and what bytes are read as: Garbled if they do not parse. */
  datatype LineCodec = LineCodec(enc: LogLine -> seq<Byte>, dec: seq<Byte> -> LogLine)

  /** Some of a line, from its start. */
  ghost predicate Piece(c: LineCodec, p: seq<Byte>) { exists l: LogLine :: !l.Garbled? && PieceOf(c, p, l) }

  predicate PieceOf(c: LineCodec, p: seq<Byte>, l: LogLine) { p != [] && p <= c.enc(l) }

  function Concat(ps: seq<seq<Byte>>): seq<Byte> {
    if ps == [] then [] else Concat(ps[..|ps| - 1]) + ps[|ps| - 1]
  }

  ghost predicate Pieces(c: LineCodec, ps: seq<seq<Byte>>) { forall i :: 0 <= i < |ps| ==> Piece(c, ps[i]) }

  /** A line is an object on one line of text: it parses as itself, no beginning of it parses, and
      neither do beginnings of several run together. */
  ghost predicate OneObjectALine(c: LineCodec) {
    && (forall l: LogLine :: !l.Garbled? ==> c.enc(l) != [] && NEWLINE !in c.enc(l) && c.dec(c.enc(l)) == l)
    && (forall l: LogLine, p :: !l.Garbled? && PieceOf(c, p, l) && p != c.enc(l) ==> c.dec(p) == Garbled)
    && (forall ps :: |ps| >= 2 && Pieces(c, ps) ==> c.dec(Concat(ps)) == Garbled)
  }

  // --------------------------------------------------------------------- reading bytes

  function FirstNewline(b: seq<Byte>): (i: nat)
    ensures i <= |b| && NEWLINE !in b[..i] && (i < |b| ==> b[i] == NEWLINE)
  {
    if b == [] || b[0] == NEWLINE then 0
    else
      var i := 1 + FirstNewline(b[1..]);
      assert b[..i] == [b[0]] + b[1..][..i - 1];
      i
  }

  /** What newlines end, and what follows the last of them. */
  function Split(b: seq<Byte>): (seq<seq<Byte>>, seq<Byte>)
    decreases |b|
  {
    var i := FirstNewline(b);
    if i == |b| then ([], b) else var (ls, rest) := Split(b[i + 1..]); ([b[..i]] + ls, rest)
  }

  function Decoded(c: LineCodec, ts: seq<seq<Byte>>): (ls: seq<LogLine>)
    ensures |ls| == |ts| && forall i :: 0 <= i < |ts| ==> ls[i] == c.dec(ts[i])
  {
    seq(|ts|, i requires 0 <= i < |ts| => c.dec(ts[i]))
  }

  /** What loadLog's scanner hands it: every line, and whatever follows the last newline. */
  function Scanned(c: LineCodec, b: seq<Byte>): seq<LogLine> {
    var (ts, rest) := Split(b);
    Decoded(c, if rest == [] then ts else ts + [rest])
  }

  /** The lines and the ending that bytes come to. */
  function FileOf(c: LineCodec, b: seq<Byte>): LogFile {
    var (ts, rest) := Split(b);
    LogFile(Decoded(c, ts), if rest == [] then Ended else if c.dec(rest).Garbled? then Half else Loose(c.dec(rest)))
  }

  /** Reading the abstraction is reading the bytes. */
  lemma ScannedIsRead(c: LineCodec, b: seq<Byte>)
    ensures Scanned(c, b) == FileOf(c, b).Read()
  {
  }

  lemma {:induction false} SplitMore(b: seq<Byte>, p: seq<Byte>)
    requires NEWLINE !in p
    ensures Split(b + p) == (Split(b).0, Split(b).1 + p)
    decreases |b|
  {
    var i := FirstNewline(b);
    FirstNewlineMore(b, p);
    if i < |b| {
      assert (b + p)[i + 1..] == b[i + 1..] + p && (b + p)[..i] == b[..i];
      SplitMore(b[i + 1..], p);
    }
  }

  lemma {:induction false} FirstIs(b: seq<Byte>, i: nat)
    requires i <= |b| && NEWLINE !in b[..i] && (i < |b| ==> b[i] == NEWLINE)
    ensures FirstNewline(b) == i
  {
    if i > 0 {
      assert b[0] == b[..i][0] && b[1..][..i - 1] == b[..i][1..];
      FirstIs(b[1..], i - 1);
    }
  }

  lemma FirstNewlineMore(b: seq<Byte>, p: seq<Byte>)
    ensures FirstNewline(b) < |b| ==> FirstNewline(b + p) == FirstNewline(b)
    ensures FirstNewline(b) == |b| && NEWLINE !in p ==> FirstNewline(b + p) == |b + p|
    ensures FirstNewline(b) == |b| && p != [] && p[0] == NEWLINE ==> FirstNewline(b + p) == |b|
  {
    var i := FirstNewline(b);
    if i < |b| {
      assert (b + p)[..i] == b[..i];
      FirstIs(b + p, i);
    } else if NEWLINE !in p {
      FirstIs(b + p, |b + p|);
    } else if p[0] == NEWLINE {
      assert (b + p)[..i] == b;
      FirstIs(b + p, |b|);
    }
  }

  lemma {:induction false} SplitEnds(b: seq<Byte>)
    ensures Split(b + [NEWLINE]) == (Split(b).0 + [Split(b).1], [])
    decreases |b|
  {
    var i := FirstNewline(b);
    FirstNewlineMore(b, [NEWLINE]);
    if i < |b| {
      assert (b + [NEWLINE])[i + 1..] == b[i + 1..] + [NEWLINE] && (b + [NEWLINE])[..i] == b[..i];
      SplitEnds(b[i + 1..]);
      var (ts, rest) := Split(b[i + 1..]);
      assert [b[..i]] + (ts + [rest]) == [b[..i]] + ts + [rest];
    } else {
      assert (b + [NEWLINE])[i + 1..] == [] && (b + [NEWLINE])[..i] == b;
      var none: seq<seq<Byte>> := [];
      assert Split([]) == (none, []) && Split(b) == (none, b);
      assert [b] + none == [b] == none + [b];
    }
  }

  lemma SplitLine(b: seq<Byte>, e: seq<Byte>)
    requires NEWLINE !in e
    ensures Split(b + (e + [NEWLINE])) == (Split(b).0 + [Split(b).1 + e], [])
  {
    SplitMore(b, e);
    SplitEnds(b + e);
    assert b + (e + [NEWLINE]) == b + e + [NEWLINE];
  }

  // --------------------------------------------------------------------- writing bytes

  /** One write, and how many of its bytes reached the file. */
  datatype Written = Written(l: LogLine, kept: nat)

  function Whole(c: LineCodec, l: LogLine): seq<Byte> { c.enc(l) + [NEWLINE] }

  /** A file is writes one after another, each cut anywhere or not at all. */
  function Bytes(c: LineCodec, ws: seq<Written>): seq<Byte> {
    if ws == [] then []
    else
      var w := ws[|ws| - 1];
      Bytes(c, ws[..|ws| - 1]) + if w.kept < |Whole(c, w.l)| then Whole(c, w.l)[..w.kept] else Whole(c, w.l)
  }

  ghost predicate Lines(ws: seq<Written>) { forall i :: 0 <= i < |ws| ==> !ws[i].l.Garbled? }

  /** What follows the last newline is nothing, or beginnings of lines run together. */
  ghost predicate RestOk(c: LineCodec, b: seq<Byte>) { exists ps :: Pieces(c, ps) && Concat(ps) == Split(b).1 }

  lemma MorePieces(c: LineCodec, ps: seq<seq<Byte>>, p: seq<Byte>)
    requires Pieces(c, ps) && Piece(c, p)
    ensures Pieces(c, ps + [p]) && Concat(ps + [p]) == Concat(ps) + p
  {
    assert (ps + [p])[..|ps|] == ps;
  }

  lemma NoPieces(c: LineCodec, ps: seq<seq<Byte>>)
    requires Pieces(c, ps)
    ensures Concat(ps) == [] <==> ps == []
  {
    if ps != [] { assert Piece(c, ps[|ps| - 1]); }
  }

  lemma CutOf(c: LineCodec, l: LogLine, k: nat) returns (p: seq<Byte>)
    requires OneObjectALine(c) && !l.Garbled? && 0 < k <= |c.enc(l)|
    ensures p == Whole(c, l)[..k] == c.enc(l)[..k] && Piece(c, p) && PieceOf(c, p, l) && NEWLINE !in p
  {
    p := c.enc(l)[..k];
    assert PieceOf(c, p, l);
  }

  /** A write cut short adds to what follows the last newline: part of a line, or, at the very end
      and on a clean file, all of a line but its newline. */
  lemma CutWrite(c: LineCodec, b: seq<Byte>, l: LogLine, k: nat)
    requires OneObjectALine(c) && RestOk(c, b) && !l.Garbled? && 0 < k <= |c.enc(l)|
    ensures RestOk(c, b + Whole(c, l)[..k])
    ensures FileOf(c, b + Whole(c, l)[..k]) == FileOf(c, b).(
      tail := if FileOf(c, b).tail.Ended? && k == |c.enc(l)| then Loose(l) else Half)
  {
    var p := CutOf(c, l, k);
    var ps :| Pieces(c, ps) && Concat(ps) == Split(b).1;
    SplitMore(b, p);
    MorePieces(c, ps, p);
    NoPieces(c, ps);
    if ps == [] {
      assert Concat(ps) + p == p;
      assert k == |c.enc(l)| ==> p == c.enc(l);
    }
  }

  /** What stands behind the last newline, with a whole line run into it. */
  lemma RunTogether(c: LineCodec, rest: seq<Byte>, ps: seq<seq<Byte>>, l: LogLine)
    requires OneObjectALine(c) && Pieces(c, ps) && Concat(ps) == rest && !l.Garbled?
    ensures c.dec(rest + c.enc(l)) == if rest == [] then l else Garbled
  {
    assert PieceOf(c, c.enc(l), l);
    MorePieces(c, ps, c.enc(l));
    NoPieces(c, ps);
    assert [] + c.enc(l) == c.enc(l);
  }

  /** A whole write on a clean file adds its line; on any other it runs into what is there, and
      neither can be read: the rule AppendLog states. */
  lemma WholeWrite(c: LineCodec, b: seq<Byte>, l: LogLine)
    requires OneObjectALine(c) && RestOk(c, b) && !l.Garbled?
    ensures FileOf(c, b + Whole(c, l)) == AppendLog(FileOf(c, b), l)
    ensures Split(b + Whole(c, l)).1 == [] && RestOk(c, b + Whole(c, l))
  {
    var (ts, rest) := Split(b);
    var ps :| Pieces(c, ps) && Concat(ps) == rest;
    SplitLine(b, c.enc(l));
    RunTogether(c, rest, ps, l);
    assert Decoded(c, ts + [rest + c.enc(l)]) == Decoded(c, ts) + [c.dec(rest + c.enc(l))];
    assert Pieces(c, []) && Concat([]) == [];
  }

  lemma {:induction false} BytesOk(c: LineCodec, ws: seq<Written>)
    requires OneObjectALine(c) && Lines(ws)
    ensures RestOk(c, Bytes(c, ws))
  {
    if ws == [] {
      assert Pieces(c, []) && Concat([]) == Split([]).1;
    } else {
      var init, w := ws[..|ws| - 1], ws[|ws| - 1];
      BytesOk(c, init);
      if w.kept == 0 { assert Bytes(c, init) + Whole(c, w.l)[..0] == Bytes(c, init); }
      else if w.kept <= |c.enc(w.l)| { CutWrite(c, Bytes(c, init), w.l, w.kept); }
      else { WholeWrite(c, Bytes(c, init), w.l); }
    }
  }

  /** What a write does to lines and ending, cut or not. */
  function AfterWrite(c: LineCodec, f: LogFile, w: Written): LogFile {
    if w.kept == 0 then f
    else if w.kept < |c.enc(w.l)| then f.(tail := Half)
    else if w.kept == |c.enc(w.l)| then f.(tail := if f.tail.Ended? then Loose(w.l) else Half)
    else AppendLog(f, w.l)
  }

  function AfterWrites(c: LineCodec, ws: seq<Written>): LogFile {
    if ws == [] then LogFile([], Ended) else AfterWrite(c, AfterWrites(c, ws[..|ws| - 1]), ws[|ws| - 1])
  }

  /** Over any run of writes, each cut after any byte, the lines and ending kept by the model are
      those of the bytes, and what a reader finds is what the model says it finds. */
  lemma {:induction false} BytesRefine(c: LineCodec, ws: seq<Written>)
    requires OneObjectALine(c) && Lines(ws)
    ensures FileOf(c, Bytes(c, ws)) == AfterWrites(c, ws)
    ensures Scanned(c, Bytes(c, ws)) == AfterWrites(c, ws).Read()
  {
    ScannedIsRead(c, Bytes(c, ws));
    if ws == [] {
      assert Split([]) == ([], []);
    } else {
      var init, w := ws[..|ws| - 1], ws[|ws| - 1];
      BytesRefine(c, init);
      BytesOk(c, init);
      var b := Bytes(c, init);
      if w.kept == 0 { assert b + Whole(c, w.l)[..0] == b; }
      else if w.kept <= |c.enc(w.l)| { CutWrite(c, b, w.l, w.kept); }
      else { WholeWrite(c, b, w.l); }
    }
  }

  // -------------------------------------------------------------- a file cut anywhere

  /** A well-kept file: every line whole. */
  function Text(c: LineCodec, ls: seq<LogLine>): seq<Byte> {
    if ls == [] then [] else Text(c, ls[..|ls| - 1]) + Whole(c, ls[|ls| - 1])
  }

  ghost predicate NoneGarbled(ls: seq<LogLine>) { forall l :: l in ls ==> !l.Garbled? }

  lemma {:induction false} TextReads(c: LineCodec, ls: seq<LogLine>)
    requires OneObjectALine(c) && NoneGarbled(ls)
    ensures FileOf(c, Text(c, ls)) == LogFile(ls, Ended) && RestOk(c, Text(c, ls))
  {
    if ls == [] {
      assert Split([]) == ([], []) && Pieces(c, []) && Concat([]) == [];
    } else {
      assert ls == ls[..|ls| - 1] + [ls[|ls| - 1]];
      TextReads(c, ls[..|ls| - 1]);
      WholeWrite(c, Text(c, ls[..|ls| - 1]), ls[|ls| - 1]);
    }
  }

  /** The first k bytes of a well-kept file are its first j lines, and behind them nothing, part
      of the next line, or all of it but its newline. */
  ghost predicate CutLeaves(c: LineCodec, ls: seq<LogLine>, k: nat, j: nat)
    requires k <= |Text(c, ls)|
  {
    var f := FileOf(c, Text(c, ls)[..k]);
    && j <= |ls| && |Text(c, ls[..j])| <= k && RestOk(c, Text(c, ls)[..k])
    && f.lines == ls[..j]
    && (k == |Text(c, ls[..j])| <==> f.tail.Ended?)
    && (f.tail.Loose? ==> j < |ls| && f.tail.l == ls[j])
  }

  lemma {:induction false} CutAnywhere(c: LineCodec, ls: seq<LogLine>, k: nat) returns (j: nat)
    requires OneObjectALine(c) && NoneGarbled(ls) && k <= |Text(c, ls)|
    ensures CutLeaves(c, ls, k, j)
  {
    assert forall l :: l in ls[..|ls|] ==> l in ls;
    if k == |Text(c, ls)| {
      j := |ls|;
      CutNowhere(c, ls);
    } else if k <= |Text(c, ls[..|ls| - 1])| {
      j := CutAnywhere(c, ls[..|ls| - 1], k);
      CutEarlier(c, ls, k, j);
    } else {
      j := |ls| - 1;
      CutLater(c, ls, k);
    }
  }

  lemma CutNowhere(c: LineCodec, ls: seq<LogLine>)
    requires OneObjectALine(c) && NoneGarbled(ls)
    ensures CutLeaves(c, ls, |Text(c, ls)|, |ls|)
  {
    assert ls[..|ls|] == ls && Text(c, ls)[..|Text(c, ls)|] == Text(c, ls);
    TextReads(c, ls);
  }

  lemma CutLater(c: LineCodec, ls: seq<LogLine>, k: nat)
    requires OneObjectALine(c) && NoneGarbled(ls) && ls != [] && |Text(c, ls[..|ls| - 1])| < k < |Text(c, ls)|
    ensures CutLeaves(c, ls, k, |ls| - 1)
  {
    var init, last := ls[..|ls| - 1], ls[|ls| - 1];
    var n := k - |Text(c, init)|;
    assert forall l :: l in init ==> l in ls;
    CutInLast(c, init, last, n);
    assert Text(c, ls)[..k] == Text(c, init) + Whole(c, last)[..n];
  }

  lemma CutEarlier(c: LineCodec, ls: seq<LogLine>, k: nat, j: nat)
    requires ls != [] && k <= |Text(c, ls[..|ls| - 1])| && CutLeaves(c, ls[..|ls| - 1], k, j)
    ensures k <= |Text(c, ls)| && CutLeaves(c, ls, k, j)
  {
    var init := ls[..|ls| - 1];
    assert Text(c, ls)[..k] == Text(c, init)[..k] && init[..j] == ls[..j];
  }

  lemma CutInLast(c: LineCodec, init: seq<LogLine>, last: LogLine, k: nat)
    requires OneObjectALine(c) && NoneGarbled(init) && !last.Garbled? && 0 < k <= |c.enc(last)|
    ensures RestOk(c, Text(c, init) + Whole(c, last)[..k])
    ensures FileOf(c, Text(c, init) + Whole(c, last)[..k])
         == LogFile(init, if k == |c.enc(last)| then Loose(last) else Half)
  {
    TextReads(c, init);
    CutWrite(c, Text(c, init), last, k);
  }

  /** A file cut after any byte, and one more message written to it: the message can be read back
      exactly when the cut fell between two lines. Anything else is lost with it, even a whole line
      that had only lost its newline and was read back in between. */
  lemma CutTakesTheNextMessage(c: LineCodec, ls: seq<LogLine>, k: nat, m: Message) returns (j: nat)
    requires OneObjectALine(c) && NoneGarbled(ls) && k <= |Text(c, ls)| && m.id != "" && !HasMsg(ls, m.id)
    ensures j <= |ls| && |Text(c, ls[..j])| <= k
    ensures var after := Scanned(c, Text(c, ls)[..k] + Whole(c, MsgLine(m)));
      && (HasMsg(after, m.id) <==> k == |Text(c, ls[..j])|)
      && after == ls[..j] + [if k == |Text(c, ls[..j])| then MsgLine(m) else Garbled]
  {
    j := CutAnywhere(c, ls, k);
    var b := Text(c, ls)[..k];
    WholeWrite(c, b, MsgLine(m));
    ScannedIsRead(c, b + Whole(c, MsgLine(m)));
    InitOfSnoc(ls[..j], MsgLine(m));
    InitOfSnoc(ls[..j], Garbled);
    assert HasMsg(ls[..j], m.id) ==> HasMsg(ls, m.id) by {
      if HasMsg(ls[..j], m.id) { PrefixHas(ls, j, m.id); }
    }
  }

  /** The newline-only cut: before the next write the line is read back, after it it is not. */
  lemma LostNewlineIsLostLine(c: LineCodec, ls: seq<LogLine>, l: LogLine, m: Message)
    requires OneObjectALine(c) && NoneGarbled(ls) && !l.Garbled?
    ensures Scanned(c, Text(c, ls) + c.enc(l)) == ls + [l]
    ensures Scanned(c, Text(c, ls) + c.enc(l) + Whole(c, MsgLine(m))) == ls + [Garbled]
  {
    var b := Text(c, ls);
    TextReads(c, ls);
    CutWrite(c, b, l, |c.enc(l)|);
    assert Whole(c, l)[..|c.enc(l)|] == c.enc(l);
    ScannedIsRead(c, b + c.enc(l));
    WholeWrite(c, b + c.enc(l), MsgLine(m));
    ScannedIsRead(c, b + c.enc(l) + Whole(c, MsgLine(m)));
  }
}
