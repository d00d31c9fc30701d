/**
  The framed byte stream between two processes: each message is preceded by its length in four bytes, and the
  reader sees the bytes in whatever pieces the network delivers.
 */
module Framing {
  import opened Collections
  import opened Messages

  const I31: nat := 0x8000_0000
  const I32: nat := 0x1_0000_0000
  const I63: nat := 0x8000_0000_0000_0000
  const I64: nat := 0x1_0000_0000_0000_0000

  /** The payload encoding: a library in the source, so any pair of functions here. */
  datatype Codec<!M> = Codec(enc: M -> seq<byte>, dec: seq<byte> -> Option<M>)

  /** All that is asked of it: decoding undoes encoding and ignores what follows. */
  ghost predicate Lawful<M(!new)>(c: Codec<M>) {
    forall m: M, rest: seq<byte> :: c.dec(c.enc(m) + rest) == Some(m)
  }

  // ---------- lengths ----------

  /** The length is written as an unsigned 32-bit big-endian integer, so only its low 32 bits. */
  function WriteSize(n: nat): (b: seq<byte>)
    ensures |b| == 4
  {
    var v := n % I32;
    var d := v / 0x100;
    var e := d / 0x100;
    [e / 0x100, e % 0x100, d % 0x100, v % 0x100]
  }

  /** It is read as a signed integer and then widened: a set top bit makes it enormous. */
  function ReadSize(b: seq<byte>): nat
    requires |b| >= 4
  {
    var v: int := (((b[0] as int) * 0x100 + b[1]) * 0x100 + b[2]) * 0x100 + b[3];
    if v < I31 then v else v + I64 - I32
  }

  lemma SizeRoundTrip(n: nat)
    requires n < I32
    ensures ReadSize(WriteSize(n)) == if n < I31 then n else n + I64 - I32
  {
  }

  /** The bytes of a length, most significant first. */
  lemma BigEndian(n: nat)
    requires n < 0x1_0000_0000
    ensures var b := WriteSize(n);
      (b[0] as int) * 0x100_0000 + (b[1] as int) * 0x1_0000 + (b[2] as int) * 0x100 + (b[3] as int) == n
  {
  }

  function Frame<M>(c: Codec<M>, m: M): seq<byte> {
    WriteSize(|c.enc(m)|) + c.enc(m)
  }

  function FrameAll<M>(c: Codec<M>, ms: seq<M>): seq<byte> {
    if ms == [] then [] else Frame(c, ms[0]) + FrameAll(c, ms[1..])
  }

  ghost predicate Fits<M>(c: Codec<M>, ms: seq<M>) {
    forall k :: 0 <= k < |ms| ==> |c.enc(ms[k])| < I31
  }

  // ---------- reading ----------

  datatype Ending = Eof | Reset
  datatype Read<M> = Got(msg: M) | Closed | Broken | Garbage

  /**
    What reading one message from the bytes `s` comes to, `s` being everything the stream still delivers before
    `end`. The payload is decoded from all bytes received by then: `seen` of those after the prefix.
   */
  function ReadOne<M>(c: Codec<M>, s: seq<byte>, end: Ending, seen: nat): (r: (Read<M>, seq<byte>))
  {
    if |s| < 4 then (if s == [] && end == Eof then Closed else Broken, s)
    else if |s| - 4 < ReadSize(s) then (Broken, s)
    else
      match c.dec(s[4..Cap(4 + seen, |s|)])
      case Some(m) => (Got(m), s[4 + ReadSize(s)..])
      case None => (Garbage, s)
  }

  function Cap(a: nat, b: nat): nat
    requires 4 <= b
  {
    if a < 4 then 4 else if a < b then a else b
  }

  lemma TakenOff(buf: seq<byte>, more: seq<byte>, n: nat)
    requires n <= |buf|
    ensures buf[n..] + more == (buf + more)[n..]
    ensures n == 4 ==> ReadSize(buf) == ReadSize(buf + more)
  {
  }

  /** A connection: what was received and not used yet, the pieces still to come, and how the stream ends. */
  class Connection {
    var buf: seq<byte>
    var incoming: seq<seq<byte>>
    const end: Ending
    var sent: seq<byte>

    ghost predicate Valid()
      reads this
    {
      forall k :: 0 <= k < |incoming| ==> incoming[k] != []
    }

    ghost function Stream(): seq<byte>
      reads this
    {
      buf + Flatten(incoming)
    }

    constructor (incoming: seq<seq<byte>>, end: Ending)
      requires forall k :: 0 <= k < |incoming| ==> incoming[k] != []
      ensures Valid() && Stream() == Flatten(incoming) && this.end == end && sent == [] && buf == []
    {
      this.buf, this.incoming, this.end, this.sent := [], incoming, end, [];
    }

    /** One read from the socket: the number of bytes received, 0 at the end of the stream. */
    method ReadBuf() returns (n: nat)
      requires Valid()
      modifies this`buf, this`incoming
      ensures Valid() && Stream() == old(Stream())
      ensures n == 0 <==> old(incoming) == []
      ensures n == 0 ==> buf == old(buf) == Stream() && incoming == []
      ensures n > 0 ==> incoming == old(incoming)[1..] && old(buf) <= buf
    {
      if incoming == [] {
        return 0;
      }
      FlattenFirst(incoming);
      assert buf + Flatten(incoming) == (buf + incoming[0]) + Flatten(incoming[1..]);
      n := |incoming[0]|;
      buf := buf + incoming[0];
      incoming := incoming[1..];
    }

    /** `seen` is how much had been received, beyond the prefix, when the payload was decoded. */
    method ReadMessage<M>(c: Codec<M>) returns (r: Read<M>, ghost seen: nat)
      requires Valid()
      modifies this`buf, this`incoming
      ensures Valid()
      ensures r == ReadOne(c, old(Stream()), end, seen).0
      ensures r.Got? ==> Stream() == ReadOne(c, old(Stream()), end, seen).1
      ensures r.Got? || r.Garbage? ==> |old(Stream())| >= 4 && ReadSize(old(Stream())) <= seen <= |old(Stream())| - 4
    {
      ghost var s := Stream();
      seen := 0;
      var ok := Fill(4);
      if !ok {
        r := if buf == [] && end == Eof then Closed else Broken;
        return;
      }
      var size := ReadSize(buf);
      TakenOff(buf, Flatten(incoming), 4);
      buf := buf[4..];
      ok := Fill(size);
      if !ok {
        r := Broken;
        return;
      }
      seen := |buf|;
      TakenOff(buf, Flatten(incoming), size);
      assert buf == s[4..4 + seen] && s[4..][size..] == s[4 + size..];
      match c.dec(buf)
      case None =>
        r := Garbage;
      case Some(m) =>
        r := Got(m);
        buf := buf[size..];
    }

    /** Both loops of `ReadMessage`: receive until at least `n` bytes are there or the stream ends. */
    method Fill(n: nat) returns (ok: bool)
      requires Valid()
      modifies this`buf, this`incoming
      ensures Valid() && Stream() == old(Stream())
      ensures ok <==> |old(Stream())| >= n
      ensures ok ==> |buf| >= n
      ensures !ok ==> buf == Stream()
    {
      while |buf| < n
        invariant Valid() && Stream() == old(Stream())
        decreases |incoming|
      {
        var k := ReadBuf();
        if k == 0 {
          return false;
        }
      }
      return true;
    }

    method WriteMessage<M>(c: Codec<M>, m: M)
      modifies this`sent
      ensures sent == old(sent) + Frame(c, m)
    {
      var data := c.enc(m);
      sent := sent + WriteSize(|data|);
      sent := sent + data;
    }
  }

  // ---------- round trip ----------

  lemma FramePrefix<M>(c: Codec<M>, m: M, rest: seq<byte>)
    ensures |Frame(c, m) + rest| >= 4
    ensures (Frame(c, m) + rest)[4..] == c.enc(m) + rest
    ensures ReadSize(Frame(c, m) + rest) == ReadSize(WriteSize(|c.enc(m)|))
  {
    var s := Frame(c, m) + rest;
    assert s[..4] == WriteSize(|c.enc(m)|);
  }

  /** A frame at the head of the stream is read back, whatever follows it and however much of that had arrived. */
  lemma ReadFrame<M(!new)>(c: Codec<M>, m: M, rest: seq<byte>, end: Ending, seen: nat)
    requires Lawful(c) && |c.enc(m)| < I31 && |c.enc(m)| <= seen
    ensures ReadOne(c, Frame(c, m) + rest, end, seen) == (Got(m), rest)
  {
    var s, n := Frame(c, m) + rest, |c.enc(m)|;
    FramePrefix(c, m, rest);
    SizeRoundTrip(n);
    var k := Cap(4 + seen, |s|) - 4;
    assert s[4..4 + k] == c.enc(m) + rest[..k - n] by {
      assert s[4..4 + k] == s[4..][..k];
    }
    assert s[4 + n..] == rest;
  }

  /** The limit is exact: with fewer than 2^63 bytes about, a frame is read back and leaves the stream at the next
      frame if and only if its payload is shorter than two gigabytes. */
  lemma ReadFrameExact<M(!new)>(c: Codec<M>, m: M, rest: seq<byte>, end: Ending, seen: nat)
    requires Lawful(c) && |c.enc(m)| + |rest| < I63 && (|c.enc(m)| < 0x8000_0000 ==> |c.enc(m)| <= seen)
    ensures ReadOne(c, Frame(c, m) + rest, end, seen) == (Got(m), rest) <==> |c.enc(m)| < 0x8000_0000
  {
    if |c.enc(m)| < I31 {
      ReadFrame(c, m, rest, end, seen);
    } else {
      FramePrefix(c, m, rest);
      LongSize(|c.enc(m)|);
      assert |Frame(c, m) + rest| == 4 + |c.enc(m)| + |rest|;
    }
  }

  /** A length from 2^31 on is never read back: it comes out as less than it was, or enormous. */
  lemma LongSize(n: nat)
    requires n >= I31
    ensures ReadSize(WriteSize(n)) < n || ReadSize(WriteSize(n)) >= I63
    ensures n % I32 < I31 ==> ReadSize(WriteSize(n)) == n % I32
    ensures n % I32 >= I31 ==> ReadSize(WriteSize(n)) >= I63
  {
    SizeRoundTrip(n % I32);
    assert WriteSize(n) == WriteSize(n % I32);
  }

  /** What happens from two gigabytes on. If the low 32 bits of the length are below 2^31, the message may be
      returned, but the end of its payload stays in the stream and is taken for the next frame; otherwise the
      stream breaks. */
  lemma LongFrame<M(!new)>(c: Codec<M>, m: M, rest: seq<byte>, end: Ending, seen: nat)
    requires Lawful(c) && I31 <= |c.enc(m)| && |c.enc(m)| + |rest| < I63
    ensures var n, r := |c.enc(m)|, ReadOne(c, Frame(c, m) + rest, end, seen);
      if n % I32 < I31 then seen >= n ==> r == (Got(m), c.enc(m)[n % I32..] + rest) else r.0 == Broken
  {
    var s, n := Frame(c, m) + rest, |c.enc(m)|;
    FramePrefix(c, m, rest);
    LongSize(n);
    assert |s| == 4 + n + |rest|;
    if n % I32 < I31 && seen >= n {
      var k := Cap(4 + seen, |s|) - 4;
      assert s[4..4 + k] == c.enc(m) + rest[..k - n] by {
        assert s[4..4 + k] == s[4..][..k];
      }
      var v := n % I32;
      assert s[4 + v..] == s[4..][v..];
      assert (c.enc(m) + rest)[v..] == c.enc(m)[v..] + rest;
    }
  }

  /** A proper beginning of a frame is never taken for a message. */
  lemma CutFrame<M>(c: Codec<M>, m: M, cut: nat, end: Ending, seen: nat)
    requires |c.enc(m)| < I31 && cut < |Frame(c, m)|
    ensures ReadOne(c, Frame(c, m)[..cut], end, seen).0 == if cut == 0 && end == Eof then Closed else Broken
  {
    var s := Frame(c, m)[..cut];
    if cut >= 4 {
      FramePrefix(c, m, []);
      SizeRoundTrip(|c.enc(m)|);
      assert ReadSize(s) == ReadSize(WriteSize(|c.enc(m)|)) by {
        assert s[..4] == WriteSize(|c.enc(m)|);
      }
    }
  }

  /** `tail` is empty or a proper beginning of a frame. */
  ghost predicate Cut<M(!new)>(c: Codec<M>, tail: seq<byte>) {
    tail == [] || exists m: M :: |c.enc(m)| < I31 && tail < Frame(c, m)
  }

  /** The stream holds the frames of `ms` and then `tail`. */
  ghost predicate Holds<M(!new)>(c: Codec<M>, ms: seq<M>, tail: seq<byte>, s: seq<byte>) {
    Lawful(c) && Fits(c, ms) && Cut(c, tail) && s == FrameAll(c, ms) + tail
  }

  /** One read from a stream of frames. */
  method ReadNext<M(!new)>(conn: Connection, c: Codec<M>, ghost todo: seq<M>, ghost tail: seq<byte>)
    returns (r: Read<M>)
    requires conn.Valid() && Holds(c, todo, tail, conn.Stream())
    modifies conn
    ensures conn.Valid()
    ensures todo == [] ==> r == if tail == [] && conn.end == Eof then Closed else Broken
    ensures todo != [] ==> r == Got(todo[0]) && Holds(c, todo[1..], tail, conn.Stream())
  {
    ghost var s := conn.Stream();
    ghost var seen;
    r, seen := conn.ReadMessage(c);
    AfterRead(c, todo, tail, s, conn.end, seen, r, conn.Stream());
  }

  /** Whatever the pieces, reading to the end yields exactly the messages written, then a clean close; if the stream
      stops inside a frame, all complete messages and then an error, never part of a message. */
  method ReadAll<M(!new)>(conn: Connection, c: Codec<M>, ghost ms: seq<M>, ghost tail: seq<byte>)
    returns (got: seq<M>, last: Read<M>)
    requires conn.Valid() && Lawful(c) && Fits(c, ms) && Cut(c, tail)
    requires conn.Stream() == FrameAll(c, ms) + tail
    modifies conn
    ensures got == ms
    ensures last == if tail == [] && conn.end == Eof then Closed else Broken
  {
    got := [];
    ghost var todo := ms;
    last := ReadNext(conn, c, todo, tail);
    while last.Got?
      invariant conn.Valid() && ms == got + todo
      invariant todo == [] ==> last == if tail == [] && conn.end == Eof then Closed else Broken
      invariant todo != [] ==> last == Got(todo[0]) && Holds(c, todo[1..], tail, conn.Stream())
      decreases |todo|
    {
      Shift(got, todo);
      got := got + [last.msg];
      todo := todo[1..];
      last := ReadNext(conn, c, todo, tail);
    }
  }

  lemma Shift<M>(got: seq<M>, todo: seq<M>)
    requires todo != []
    ensures (got + [todo[0]]) + todo[1..] == got + todo
  {
  }

  lemma AfterRead<M(!new)>(c: Codec<M>, todo: seq<M>, tail: seq<byte>, s: seq<byte>, end: Ending, seen: nat,
                           r: Read<M>, s': seq<byte>)
    requires Lawful(c) && Fits(c, todo) && Cut(c, tail) && s == FrameAll(c, todo) + tail
    requires r == ReadOne(c, s, end, seen).0 && (r.Got? ==> s' == ReadOne(c, s, end, seen).1)
    requires r.Got? || r.Garbage? ==> |s| >= 4 && ReadSize(s) <= seen
    ensures if todo == [] then r == if tail == [] && end == Eof then Closed else Broken
            else r == Got(todo[0]) && s' == FrameAll(c, todo[1..]) + tail && Fits(c, todo[1..])
  {
    NextRead(c, todo, tail, s, end, seen);
  }

  /** One read of a stream of whole frames and a cut one. */
  lemma NextRead<M(!new)>(c: Codec<M>, todo: seq<M>, tail: seq<byte>, s: seq<byte>, end: Ending, seen: nat)
    requires Lawful(c) && Fits(c, todo) && Cut(c, tail) && s == FrameAll(c, todo) + tail
    ensures todo == [] ==> ReadOne(c, s, end, seen).0 == if tail == [] && end == Eof then Closed else Broken
    ensures todo != [] ==> |s| >= 4 && (ReadOne(c, s, end, seen).0.Got? || ReadOne(c, s, end, seen).0.Garbage?)
    ensures todo != [] && ReadSize(s) <= seen ==>
      ReadOne(c, s, end, seen) == (Got(todo[0]), FrameAll(c, todo[1..]) + tail)
  {
    if todo == [] {
      assert s == tail;
      AtTheCut(c, s, tail, end, seen);
    } else {
      HeadOfMany(c, todo, tail, s);
      HeadIsRead(c, todo, tail, s, end, seen);
    }
  }

  lemma HeadOfMany<M>(c: Codec<M>, ms: seq<M>, tail: seq<byte>, s: seq<byte>)
    requires ms != [] && s == FrameAll(c, ms) + tail
    ensures s == Frame(c, ms[0]) + (FrameAll(c, ms[1..]) + tail)
  {
  }

  lemma HeadIsRead<M(!new)>(c: Codec<M>, ms: seq<M>, tail: seq<byte>, s: seq<byte>, end: Ending, seen: nat)
    requires Lawful(c) && ms != [] && |c.enc(ms[0])| < I31 && s == Frame(c, ms[0]) + (FrameAll(c, ms[1..]) + tail)
    ensures ReadOne(c, s, end, seen).0 != Closed && ReadOne(c, s, end, seen).0 != Broken
    ensures |c.enc(ms[0])| <= seen ==> ReadOne(c, s, end, seen) == (Got(ms[0]), FrameAll(c, ms[1..]) + tail)
    ensures ReadSize(s) == |c.enc(ms[0])|
  {
    var rest := FrameAll(c, ms[1..]) + tail;
    FramePrefix(c, ms[0], rest);
    SizeRoundTrip(|c.enc(ms[0])|);
    if |c.enc(ms[0])| <= seen {
      ReadFrame(c, ms[0], rest, end, seen);
    }
  }

  lemma AtTheCut<M(!new)>(c: Codec<M>, s: seq<byte>, tail: seq<byte>, end: Ending, seen: nat)
    requires Cut(c, tail) && s == tail
    ensures ReadOne(c, s, end, seen).0 == if tail == [] && end == Eof then Closed else Broken
  {
    if tail != [] {
      var m :| |c.enc(m)| < I31 && tail < Frame(c, m);
      assert tail == Frame(c, m)[..|tail|];
      CutFrame(c, m, |tail|, end, seen);
    }
  }

  // ---------- a codec that meets the assumption ----------

  function EncodeBytes(m: seq<byte>): seq<byte> {
    if m == [] then [0] else [1, m[0]] + EncodeBytes(m[1..])
  }

  function DecodeBytes(s: seq<byte>): Option<seq<byte>> {
    if s == [] then None
    else if s[0] == 0 then Some([])
    else if |s| < 2 then None
    else
      match DecodeBytes(s[2..])
      case None => None
      case Some(m) => Some([s[1]] + m)
  }

  lemma {:induction false} DecodeEncoded(m: seq<byte>, rest: seq<byte>)
    ensures DecodeBytes(EncodeBytes(m) + rest) == Some(m)
  {
    if m == [] {
    } else {
      DecodeEncoded(m[1..], rest);
      var t := EncodeBytes(m[1..]) + rest;
      assert EncodeBytes(m) + rest == [1, m[0]] + t;
      assert ([1, m[0]] + t)[2..] == t;
      assert [m[0]] + m[1..] == m;
    }
  }

  /** The assumption on codecs can be met. */
  lemma BytesAreLawful()
    ensures Lawful(Codec(EncodeBytes, DecodeBytes))
  {
    var c := Codec(EncodeBytes, DecodeBytes);
    forall m: seq<byte>, rest: seq<byte> ensures c.dec(c.enc(m) + rest) == Some(m) {
      DecodeEncoded(m, rest);
    }
  }

  lemma {:induction false} EncodedLength(m: seq<byte>)
    ensures |EncodeBytes(m)| == 2 * |m| + 1
  {
    if m == [] {
    } else {
      EncodedLength(m[1..]);
    }
  }

  /** The last frame of a stream, with a payload too long. */
  predicate BreaksStream<M(!new)>(c: Codec<M>, m: M, end: Ending, seen: nat) {
    ReadOne(c, Frame(c, m), end, seen).0 == Broken
  }

  predicate LeavesRemains<M(==,!new)>(c: Codec<M>, m: M, end: Ending, seen: nat) {
    ReadOne(c, Frame(c, m), end, seen).0 == Got(m) && ReadOne(c, Frame(c, m), end, seen).1 != []
  }

  lemma LongLastFrame<M(!new)>(c: Codec<M>, m: M, end: Ending, seen: nat)
    requires Lawful(c) && I31 <= |c.enc(m)| < I63
    ensures if |c.enc(m)| % I32 < I31 then seen >= |c.enc(m)| ==> LeavesRemains(c, m, end, seen)
            else BreaksStream(c, m, end, seen)
  {
    LongFrame(c, m, [], end, seen);
    assert Frame(c, m) + [] == Frame(c, m);
  }

  /** A payload of two gigabytes that breaks the stream. */
  lemma LongPayloadBreaks(end: Ending, seen: nat)
    ensures exists c: Codec<seq<byte>>, m: seq<byte> :: Lawful(c) && BreaksStream(c, m, end, seen)
  {
    var c, m := BytesCodec(), LongBytes(I31 / 2);
    LongEncoding(I31 / 2);
    LongLastFrame(c, m, end, seen);
  }

  /** A payload of four gigabytes that is returned but leaves the stream out of step. */
  lemma LongerPayloadMisaligns(end: Ending, seen: nat)
    requires seen > I32
    ensures exists c: Codec<seq<byte>>, m: seq<byte> :: Lawful(c) && LeavesRemains(c, m, end, seen)
  {
    var c, m := BytesCodec(), LongBytes(I31);
    LongEncoding(I31);
    LongLastFrame(c, m, end, seen);
  }

  function BytesCodec(): Codec<seq<byte>> { Codec(EncodeBytes, DecodeBytes) }

  lemma LongEncoding(n: nat)
    ensures Lawful(BytesCodec()) && |BytesCodec().enc(LongBytes(n))| == 2 * n + 1
  {
    BytesAreLawful();
    EncodedLength(LongBytes(n));
  }

  function LongBytes(n: nat): (m: seq<byte>)
    ensures |m| == n
  {
    seq(n, _ => 0)
  }
}
