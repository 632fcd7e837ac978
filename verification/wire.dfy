/** Frames on a byte stream (chatwire/wire.go): four bytes of length, most significant first, and
    then the body. What a body is made of is a parameter. */
module Wire {
  import opened Wrappers
  import opened Names
  import opened Messages
  import opened ServerModel

  const MAX_FRAME: nat := 0x10_0000

  /** How a frame becomes bytes and is read back. */
  datatype Codec<!F> = Codec(enc: F -> seq<Byte>, dec: seq<Byte> -> Option<F>)

  /** Decoding undoes encoding, and no encoding is empty. */
  ghost predicate Faithful<F(!new)>(c: Codec<F>) {
    forall f: F :: c.enc(f) != [] && c.dec(c.enc(f)) == Some(f)
  }

  // ----------------------------------------------------------------- the length prefix

  function PutUint32(n: nat): (b: seq<Byte>)
    requires n < 0x1_0000_0000
    ensures |b| == 4
  {
    [(n / 0x100_0000) as Byte, (n / 0x1_0000 % 0x100) as Byte, (n / 0x100 % 0x100) as Byte, (n % 0x100) as Byte]
  }

  function Uint32(b: seq<Byte>): (n: nat)
    requires |b| == 4
    ensures n < 0x1_0000_0000
  {
    b[0] as int * 0x100_0000 + b[1] as int * 0x1_0000 + b[2] as int * 0x100 + b[3] as int
  }

  lemma LengthRoundTrip(n: nat)
    requires n < 0x1_0000_0000
    ensures Uint32(PutUint32(n)) == n
  {
    var b := PutUint32(n);
    assert n / 0x100 == n / 0x1_0000 * 0x100 + n / 0x100 % 0x100;
    assert n / 0x1_0000 == n / 0x100_0000 * 0x100 + n / 0x1_0000 % 0x100;
  }

  lemma PrefixRoundTrip(b: seq<Byte>)
    requires |b| == 4
    ensures PutUint32(Uint32(b)) == b
  {
    var n := Uint32(b);
    var x := b[0] as int;
    var y := x * 0x100 + b[1] as int;
    var z := y * 0x100 + b[2] as int;
    assert n == z * 0x100 + b[3] as int;
    assert n / 0x100 == z && z / 0x100 == y && y / 0x100 == x;
    assert n / 0x1_0000 == y && n / 0x100_0000 == x;
  }

  // -------------------------------------------------------- what reading a stream gives

  datatype Outcome<+F> = Got(f: F) | EndOfStream | CutShort | EmptyFrame | TooLong | BadBody

  function Framed<F>(c: Codec<F>, f: F): seq<Byte>
    requires |c.enc(f)| <= MAX_FRAME
  {
    PutUint32(|c.enc(f)|) + c.enc(f)
  }

  ghost predicate Fits<F>(c: Codec<F>, fs: seq<F>) { forall f :: f in fs ==> |c.enc(f)| <= MAX_FRAME }

  /** Frames written one after another. */
  ghost function Stream<F>(c: Codec<F>, fs: seq<F>): seq<Byte>
    requires Fits(c, fs)
  {
    if fs == [] then [] else Framed(c, fs[0]) + Stream(c, fs[1..])
  }

  /** One frame off the front, and what is left. A stream that ends between a header and its
      body reads as one that has simply ended. */
  function Parse<F>(c: Codec<F>, s: seq<Byte>): (Outcome<F>, seq<Byte>) {
    if s == [] then (EndOfStream, [])
    else if |s| < 4 then (CutShort, [])
    else
      var n := Uint32(s[..4]);
      if n == 0 then (EmptyFrame, s[4..])
      else if n > MAX_FRAME then (TooLong, s[4..])
      else if |s| == 4 then (EndOfStream, [])
      else if |s| < 4 + n then (CutShort, [])
      else
        var f := c.dec(s[4..4 + n]);
        (if f.Some? then Got(f.value) else BadBody, s[4 + n..])
  }

  /** Frame after frame until something else comes. */
  function ParseAll<F>(c: Codec<F>, s: seq<Byte>): (seq<F>, Outcome<F>)
    decreases |s|
  {
    var (first, rest) := Parse(c, s);
    if first.Got? then var (fs, end) := ParseAll(c, rest); ([first.f] + fs, end) else ([], first)
  }

  lemma ParseFramed<F(!new)>(c: Codec<F>, f: F, tail: seq<Byte>)
    requires Faithful(c) && |c.enc(f)| <= MAX_FRAME
    ensures Parse(c, Framed(c, f) + tail) == (Got(f), tail)
  {
    var s, n := Framed(c, f) + tail, |c.enc(f)|;
    LengthRoundTrip(n);
    assert s[..4] == PutUint32(n);
    assert s[4..4 + n] == c.enc(f);
    assert s[4 + n..] == tail;
  }

  /** Reading gives back exactly the frames written, in order, and then whatever the rest of the
      stream gives. */
  lemma {:induction false} FramesComeBack<F(!new)>(c: Codec<F>, fs: seq<F>, tail: seq<Byte>)
    requires Faithful(c) && Fits(c, fs)
    ensures ParseAll(c, Stream(c, fs) + tail) == (fs + ParseAll(c, tail).0, ParseAll(c, tail).1)
  {
    if fs == [] {
      assert Stream(c, fs) + tail == tail;
      assert fs + ParseAll(c, tail).0 == ParseAll(c, tail).0;
    } else {
      assert Fits(c, fs[1..]);
      FramesComeBack(c, fs[1..], tail);
      OneComesBack(c, fs[0], Stream(c, fs[1..]) + tail);
      assert Stream(c, fs) + tail == Framed(c, fs[0]) + (Stream(c, fs[1..]) + tail) by {
        Regroup(Framed(c, fs[0]), Stream(c, fs[1..]), tail);
      }
      assert [fs[0]] + (fs[1..] + ParseAll(c, tail).0) == fs + ParseAll(c, tail).0 by {
        Regroup([fs[0]], fs[1..], ParseAll(c, tail).0);
        assert [fs[0]] + fs[1..] == fs;
      }
    }
  }

  lemma Regroup<T>(a: seq<T>, b: seq<T>, c: seq<T>)
    ensures a + b + c == a + (b + c)
  {
  }

  lemma OneComesBack<F(!new)>(c: Codec<F>, f: F, tail: seq<Byte>)
    requires Faithful(c) && |c.enc(f)| <= MAX_FRAME
    ensures ParseAll(c, Framed(c, f) + tail) == ([f] + ParseAll(c, tail).0, ParseAll(c, tail).1)
  {
    ParseFramed(c, f, tail);
  }

  /** The whole stream gives the frames and then its end. */
  lemma RoundTrip<F(!new)>(c: Codec<F>, fs: seq<F>)
    requires Faithful(c) && Fits(c, fs)
    ensures ParseAll(c, Stream(c, fs)) == (fs, EndOfStream)
  {
    FramesComeBack(c, fs, []);
    assert Stream(c, fs) + [] == Stream(c, fs) && fs + [] == fs;
  }

  /** k falls between two frames, or between a header and its body. */
  ghost predicate AtSeam<F>(c: Codec<F>, fs: seq<F>, k: nat)
    requires Fits(c, fs)
    decreases |fs|
  {
    k == 0 || (fs != [] && (k == 4 || (k >= |Framed(c, fs[0])| && AtSeam(c, fs[1..], k - |Framed(c, fs[0])|))))
  }

  /** A stream of frames cut after k bytes reads as one that has simply ended exactly when k falls
      between two frames or between a header and its body; anywhere else the cut is reported. */
  lemma {:induction false} CutIsCleanExactlyWhen<F(!new)>(c: Codec<F>, fs: seq<F>, k: nat)
    requires Faithful(c) && Fits(c, fs) && k <= |Stream(c, fs)|
    ensures ParseAll(c, Stream(c, fs)[..k]).1 == EndOfStream <==> AtSeam(c, fs, k)
    ensures ParseAll(c, Stream(c, fs)[..k]).1 == CutShort <==> !AtSeam(c, fs, k)
  {
    if fs != [] {
      var s, n := Stream(c, fs), |Framed(c, fs[0])|;
      assert Fits(c, fs[1..]);
      if k < n {
        CutFrameCleanly(c, fs[0], s[..k], s);
      } else {
        CutIsCleanExactlyWhen(c, fs[1..], k - n);
        assert s[..k] == Framed(c, fs[0]) + Stream(c, fs[1..])[..k - n];
        ParseFramed(c, fs[0], Stream(c, fs[1..])[..k - n]);
        assert n > 4;
      }
    }
  }

  lemma CutFrameCleanly<F(!new)>(c: Codec<F>, f: F, cut: seq<Byte>, s: seq<Byte>)
    requires Faithful(c) && |c.enc(f)| <= MAX_FRAME && Framed(c, f) <= s && cut <= s && |cut| < |Framed(c, f)|
    ensures Parse(c, cut).0 == if |cut| == 0 || |cut| == 4 then EndOfStream else CutShort
  {
    LengthRoundTrip(|c.enc(f)|);
    assert c.enc(f) != [];
    if |cut| >= 4 { assert cut[..4] == s[..4] == Framed(c, f)[..4] == PutUint32(|c.enc(f)|); }
  }

  /** A stream that loses its end anywhere gives a prefix of its frames. */
  lemma {:induction false} CutStreamGivesAPrefix<F(!new)>(c: Codec<F>, fs: seq<F>, k: nat)
    requires Faithful(c) && Fits(c, fs) && k <= |Stream(c, fs)|
    ensures var (got, end) := ParseAll(c, Stream(c, fs)[..k]); got <= fs && (end == EndOfStream || end == CutShort)
  {
    if fs != [] {
      var s, n := Stream(c, fs), |Framed(c, fs[0])|;
      assert Fits(c, fs[1..]);
      if k < n {
        CutFrame(c, fs[0], s[..k], s);
      } else {
        CutStreamGivesAPrefix(c, fs[1..], k - n);
        assert s[..k] == Framed(c, fs[0]) + Stream(c, fs[1..])[..k - n];
        ParseFramed(c, fs[0], Stream(c, fs[1..])[..k - n]);
      }
    }
  }

  lemma CutFrame<F(!new)>(c: Codec<F>, f: F, cut: seq<Byte>, s: seq<Byte>)
    requires Faithful(c) && |c.enc(f)| <= MAX_FRAME && Framed(c, f) <= s && cut <= s && |cut| < |Framed(c, f)|
    ensures Parse(c, cut).0 == EndOfStream || Parse(c, cut).0 == CutShort
  {
    LengthRoundTrip(|c.enc(f)|);
    if |cut| >= 4 { assert cut[..4] == s[..4] == Framed(c, f)[..4] == PutUint32(|c.enc(f)|); }
  }

  /** What a message is after it has crossed as a frame, as the receiving end files it. */
  lemma MessageCrosses(m: Message, conv: ConvId, from: PeerId, now: int)
    ensures MessageFromFrame(FrameOf(m, conv), from, now) ==
      if m.id == "" || |m.body| > MAX_BODY_RUNES then None
      else Some(m.(conv := conv, from := from, sent := if m.sent == 0 then now else m.sent,
                   mine := false, state := Unset, read := false))
  {
  }

  // --------------------------------------------------------------- over a connection

  lemma Halves(a: seq<Byte>, b: seq<Byte>, s: seq<Byte>)
    requires a + b == s
    ensures a == s[..|a|] && b == s[|a|..]
  {
  }

  function Joined(parts: seq<seq<Byte>>): seq<Byte> {
    if parts == [] then [] else parts[0] + Joined(parts[1..])
  }

  /** The reading end of a connection: the bytes still to come, in the pieces they arrive in. */
  class Reader {
    var parts: seq<seq<Byte>>

    constructor (parts: seq<seq<Byte>>)
      ensures this.parts == parts
    {
      this.parts := parts;
    }

    static method Copy(part: seq<Byte>, n: nat, buf: array<Byte>, at: nat)
      requires n <= |part| && at + n <= buf.Length
      modifies buf
      ensures buf[..at] == old(buf[..at]) && buf[at..at + n] == part[..n]
    {
      for i := 0 to n
        invariant buf[..at] == old(buf[..at])
        invariant buf[at..at + i] == part[..i]
      {
        buf[at + i] := part[i];
        assert part[..i + 1] == part[..i] + [part[i]];
        assert buf[at..at + i + 1] == buf[at..at + i] + [part[i]];
      }
    }

    /** Whatever of the next piece fits into buf from at on; none of it at the end. */
    method Read(buf: array<Byte>, at: nat) returns (n: nat, eof: bool)
      requires at < buf.Length
      modifies `parts, buf
      ensures at + n <= buf.Length && buf[..at] == old(buf[..at])
      ensures buf[at..at + n] + Joined(parts) == old(Joined(parts))
      ensures eof ==> n == 0 && old(Joined(parts)) == []
      ensures !eof ==> n > 0 || |parts| < |old(parts)|
    {
      if parts == [] { return 0, true; }
      var part, more := parts[0], parts[1..];
      n := if |part| <= buf.Length - at then |part| else buf.Length - at;
      Copy(part, n, buf, at);
      assert part == part[..n] + part[n..];
      assert ([part[n..]] + more)[1..] == more;
      parts := if n == |part| then more else [part[n..]] + more;
      eof := false;
    }

    /** Reads until the buffer is full, however many pieces that takes. */
    method ReadFull(buf: array<Byte>) returns (n: nat)
      modifies `parts, buf
      ensures n <= buf.Length && buf[..n] + Joined(parts) == old(Joined(parts))
      ensures n < buf.Length ==> Joined(parts) == []
    {
      n := 0;
      ghost var all := Joined(parts);
      while n < buf.Length
        invariant n <= buf.Length && buf[..n] + Joined(parts) == all
        decreases buf.Length - n, |parts|
      {
        ghost var before := buf[..n];
        var got, eof := Read(buf, n);
        if eof { return; }
        assert buf[..n + got] == before + buf[n..n + got];
        n := n + got;
      }
    }

    method ReadFrame<F>(c: Codec<F>) returns (out: Outcome<F>)
      modifies `parts
      ensures (out, Joined(parts)) == Parse(c, old(Joined(parts)))
    {
      ghost var s := Joined(parts);
      var hdr := new Byte[4];
      var n := ReadFull(hdr);
      if n < 4 { return if n == 0 then EndOfStream else CutShort; }
      assert hdr[..n] == hdr[..];
      Halves(hdr[..], Joined(parts), s);
      var len := Uint32(hdr[..]);
      if len == 0 { return EmptyFrame; }
      if len > MAX_FRAME { return TooLong; }
      var body := new Byte[len];
      var m := ReadFull(body);
      if m < len { return if m == 0 then EndOfStream else CutShort; }
      assert body[..m] == body[..];
      Halves(body[..], Joined(parts), s[4..]);
      assert s[4..][..len] == s[4..4 + len] && s[4..][len..] == s[4 + len..];
      var f := c.dec(body[..]);
      out := if f.Some? then Got(f.value) else BadBody;
    }

    /** The loop of either end: every frame in turn, until reading fails. */
    method ReadLoop<F>(c: Codec<F>) returns (fs: seq<F>, end: Outcome<F>)
      modifies `parts
      ensures (fs, end) == ParseAll(c, old(Joined(parts)))
    {
      fs := [];
      ghost var s := Joined(parts);
      assert [] + ParseAll(c, s).0 == ParseAll(c, s).0;
      while true
        invariant ParseAll(c, s) == (fs + ParseAll(c, Joined(parts)).0, ParseAll(c, Joined(parts)).1)
        decreases |Joined(parts)|
      {
        ghost var rest := Joined(parts);
        var out := ReadFrame(c);
        if !out.Got? {
          assert fs + [] == fs;
          return fs, out;
        }
        assert fs + ([out.f] + ParseAll(c, Joined(parts)).0) == fs + [out.f] + ParseAll(c, Joined(parts)).0;
        fs := fs + [out.f];
      }
    }
  }

  /** The writing end: it takes so many more bytes, and then it is gone. */
  class Writer {
    var sent: seq<Byte>
    var room: nat

    constructor (room: nat)
      ensures sent == [] && this.room == room
    {
      sent, this.room := [], room;
    }

    method Write(b: seq<Byte>) returns (ok: bool)
      modifies this
      ensures ok <==> |b| <= old(room)
      ensures sent == old(sent) + if ok then b else b[..old(room)]
      ensures room == if ok then old(room) - |b| else 0
    {
      ok := |b| <= room;
      sent := sent + if ok then b else b[..room];
      room := if ok then room - |b| else 0;
    }

    /** Nothing is written of a frame that is too large, all of one there is room for, and of any
        other as much as there is room for. */
    method WriteFrame<F>(c: Codec<F>, f: F) returns (ok: bool)
      modifies this
      ensures ok <==> |c.enc(f)| <= MAX_FRAME && 4 + |c.enc(f)| <= old(room)
      ensures |c.enc(f)| > MAX_FRAME ==> sent == old(sent) && room == old(room)
      ensures |c.enc(f)| <= MAX_FRAME ==> sent == old(sent) + if ok then Framed(c, f) else Framed(c, f)[..old(room)]
    {
      var body := c.enc(f);
      if |body| > MAX_FRAME { return false; }
      var hdr := PutUint32(|body|);
      ok := Write(hdr);
      if !ok {
        assert Framed(c, f)[..old(room)] == hdr[..old(room)];
        return;
      }
      ok := Write(body);
      if !ok { assert Framed(c, f)[..old(room)] == hdr + body[..old(room) - 4]; }
    }
  }
}
