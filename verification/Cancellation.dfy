/**
  The connection handler abandons a `read_message` in progress whenever a message for the peer is ready. A read
  that has already taken the length prefix off the buffer forgets it when abandoned. Here: exactly when
  that loses bytes, and why it never happens.
 */
module Cancellation {
  import opened Messages
  import opened Scheduler
  import opened Composition
  import opened Invariant
  import opened Runs
  import opened Relay
  import opened Framing

  /** A reader between two pieces of input: the buffer, and the length if the read in progress has taken it. */
  datatype Reader = Reader(buf: seq<byte>, size: Option<nat>)

  function Cancel(rd: Reader): Reader { rd.(size := None) }

  /** Read as far as the buffer goes: the messages returned and the state the next read is left in. */
  function Drain<M>(c: Codec<M>, rd: Reader): (r: (seq<M>, Reader))
    decreases 2 * |rd.buf| + (if rd.size.Some? then 1 else 0)
  {
    match rd.size
    case None => if |rd.buf| < 4 then ([], rd) else Drain(c, Reader(rd.buf[4..], Some(ReadSize(rd.buf))))
    case Some(n) =>
      if |rd.buf| < n then ([], rd)
      else
        match c.dec(rd.buf)
        case None => ([], rd)
        case Some(m) =>
          var r := Drain(c, Reader(rd.buf[n..], None));
          ([m] + r.0, r.1)
  }

  /** A read that has `u` of the current frame. */
  function Partway(u: seq<byte>): Reader {
    if |u| < 4 then Reader(u, None) else Reader(u[4..], Some(ReadSize(u)))
  }

  /** Where a stretch of the stream of frames leaves the reader. */
  ghost predicate At<M>(c: Codec<M>, ms: seq<M>, p: seq<byte>, k: nat, rd: Reader) {
    && k <= |ms|
    && FrameAll(c, ms[..k]) <= p
    && var u := p[|FrameAll(c, ms[..k])|..];
       rd == Partway(u) && (if k == |ms| then u == [] else |u| < |Frame(c, ms[k])|)
  }

  lemma {:induction false} DrainFirst<M(!new)>(c: Codec<M>, m: M, rest: seq<byte>)
    requires Lawful(c) && |c.enc(m)| < I31
    ensures var r := Drain(c, Reader(rest, None));
      Drain(c, Reader(Frame(c, m) + rest, None)) == ([m] + r.0, r.1)
  {
    var s, n := Frame(c, m) + rest, |c.enc(m)|;
    FramePrefix(c, m, rest);
    SizeRoundTrip(n);
    assert s[4..] == c.enc(m) + rest;
    assert (c.enc(m) + rest)[n..] == rest;
    assert Drain(c, Reader(s, None)) == Drain(c, Reader(s[4..], Some(n)));
  }

  lemma {:induction false} DrainCut<M>(c: Codec<M>, m: M, u: seq<byte>)
    requires |c.enc(m)| < I31 && u < Frame(c, m)
    ensures Drain(c, Reader(u, None)) == ([], Partway(u))
  {
    if |u| >= 4 {
      FramePrefix(c, m, []);
      SizeRoundTrip(|c.enc(m)|);
      assert ReadSize(u) == |c.enc(m)| by {
        assert u[..4] == Frame(c, m)[..4] == WriteSize(|c.enc(m)|);
      }
    }
  }

  /** Any beginning of a stream of frames yields the messages it wholly contains, in order, and leaves the reader part
      way through the next frame. */
  lemma {:induction false} DrainFrames<M(!new)>(c: Codec<M>, ms: seq<M>, p: seq<byte>)
    requires Lawful(c) && Fits(c, ms) && p <= FrameAll(c, ms)
    ensures var r := Drain(c, Reader(p, None)); r.0 <= ms && At(c, ms, p, |r.0|, r.1)
    decreases |ms|
  {
    if ms == [] {
    } else {
      var f := Frame(c, ms[0]);
      if |p| < |f| {
        assert p == f[..|p|];
        DrainCut(c, ms[0], p);
        assert ms[..0] == [];
      } else {
        var rest := p[|f|..];
        assert p == f + rest;
        assert rest <= FrameAll(c, ms[1..]);
        DrainFrames(c, ms[1..], rest);
        DrainFirst(c, ms[0], rest);
        var r := Drain(c, Reader(rest, None));
        AtShift(c, ms, p, rest, |r.0|, r.1);
      }
    }
  }

  lemma AtShift<M>(c: Codec<M>, ms: seq<M>, p: seq<byte>, rest: seq<byte>, k: nat, rd: Reader)
    requires ms != [] && p == Frame(c, ms[0]) + rest && At(c, ms[1..], rest, k, rd)
    ensures At(c, ms, p, k + 1, rd)
  {
    assert ms[..k + 1][1..] == ms[1..][..k];
    var g := FrameAll(c, ms[1..][..k]);
    assert FrameAll(c, ms[..k + 1]) == Frame(c, ms[0]) + g;
    assert p[|Frame(c, ms[0]) + g|..] == rest[|g|..];
  }

  /**
    Exactly when abandoning a read is harmless. The reader has received `p`; the part of it that belongs to the frame
    in progress is still all there after the cancellation if and only if fewer than four bytes of that frame
    had arrived. Otherwise its length is gone and the stream is out of step.
   */
  lemma CancelExact<M(!new)>(c: Codec<M>, ms: seq<M>, p: seq<byte>)
    requires Lawful(c) && Fits(c, ms) && p <= FrameAll(c, ms)
    ensures var r := Drain(c, Reader(p, None));
      && |r.0| <= |ms| && FrameAll(c, ms[..|r.0|]) <= p
      && var u := p[|FrameAll(c, ms[..|r.0|])|..];
         (Cancel(r.1).buf == u <==> |u| < 4) && (Cancel(r.1) == r.1 <==> |u| < 4)
  {
    DrainFrames(c, ms, p);
  }

  // ---------- the composed system with the handlers' readers in it ----------

  /** The reading side of a connection's handler: how many bytes it received so far, and its reader. */
  datatype Line = Line(got: nat, rd: Reader)

  datatype Wired = Wired(y: Sys, lines: seq<Line>)

  /** What can happen: `n` more bytes reach a handler; its read in progress takes the length off the buffer; its read
      completes, returning a message; any step of the composed system but that of a completed read. */
  datatype Event = Receive(i: nat, n: nat) | TakeLength(i: nat) | Complete(i: nat) | Do(st: Step)

  /** Everything the peer wrote, as bytes. */
  function Bytes(c: Codec<Message>, k: Conn): seq<byte> { FrameAll(c, Msgs(k.up)) }

  /** The read in progress has a length and at least as many bytes. */
  predicate Ready(rd: Reader) { rd.size.Some? && rd.size.value <= |rd.buf| }

  /** Whether a read completes is up to the reader alone. Peers write no payload of two gigabytes or more. */
  ghost predicate Possible(c: Codec<Message>, w: Wired, ev: Event) {
    && |w.lines| == |w.y.conns|
    && match ev
       case Receive(i, n) =>
         i < |w.lines| && w.y.conns[i].alive && w.lines[i].got + n <= |Bytes(c, w.y.conns[i])|
       case TakeLength(i) =>
         i < |w.lines| && w.y.conns[i].alive && w.lines[i].rd.size.None? && |w.lines[i].rd.buf| >= 4
       case Complete(i) => i < |w.lines| && w.y.conns[i].alive && Ready(w.lines[i].rd)
       case Do(st) =>
         !st.HandlerForward? && Enabled(w.y, st) && AllFit(c, Apply(w.y, st))
  }

  ghost predicate AllFit(c: Codec<Message>, y: Sys) {
    forall i :: 0 <= i < |y.conns| ==> Fits(c, Msgs(y.conns[i].up))
  }

  function LinesThen(lines: seq<Line>, st: Step): seq<Line> {
    if st.Accept? then lines + [Line(0, Reader([], None))]
    else if st.HandlerWrite? && st.i < |lines| then lines[st.i := lines[st.i].(rd := Cancel(lines[st.i].rd))]
    else lines
  }

  /** A completed read hands on one more message; writing to the peer abandons the read in progress. */
  ghost function Happen(c: Codec<Message>, w: Wired, ev: Event): Wired
    requires Possible(c, w, ev)
  {
    match ev
    case Receive(i, n) =>
      var l := w.lines[i];
      var more := Bytes(c, w.y.conns[i])[l.got..l.got + n];
      w.(lines := w.lines[i := Line(l.got + n, l.rd.(buf := l.rd.buf + more))])
    case TakeLength(i) =>
      var l := w.lines[i];
      w.(lines := w.lines[i := l.(rd := Reader(l.rd.buf[4..], Some(ReadSize(l.rd.buf))))])
    case Complete(i) =>
      var l, k := w.lines[i], w.y.conns[i];
      Wired(SetConn(w.y, i, k.(fwd := k.fwd + 1)),
            w.lines[i := l.(rd := Reader(l.rd.buf[l.rd.size.value..], None))])
    case Do(st) => Wired(Apply(w.y, st), LinesThen(w.lines, st))
  }

  ghost predicate WiredRun(c: Codec<Message>, w: Wired, evs: seq<Event>)
    decreases |evs|
  {
    evs == [] || (Possible(c, w, evs[0]) && WiredRun(c, Happen(c, w, evs[0]), evs[1..]))
  }

  ghost function WiredAfter(c: Codec<Message>, w: Wired, evs: seq<Event>): Wired
    requires WiredRun(c, w, evs)
    decreases |evs|
  {
    if evs == [] then w else WiredAfter(c, Happen(c, w, evs[0]), evs[1..])
  }

  /** The steps of the composed system behind the events: a completed read is the handler's forwarding. */
  function StepOf(ev: Event): seq<Step> {
    match ev
    case Complete(i) => [HandlerForward(i)]
    case Do(st) => [st]
    case _ => []
  }

  function StepsOf(evs: seq<Event>): seq<Step> {
    if evs == [] then [] else StepOf(evs[0]) + StepsOf(evs[1..])
  }

  // ---------- where a reader stands ----------

  /** The bytes of the messages handed on. */
  function Used(c: Codec<Message>, k: Conn): seq<byte>
    requires k.fwd <= |k.up|
  {
    FrameAll(c, Msgs(k.up[..k.fwd]))
  }

  /** The reader holds exactly what was received beyond the messages handed on, with or without the length taken
      off. */
  predicate Holding(rd: Reader, u: seq<byte>) {
    rd == Reader(u, None) || (|u| >= 4 && rd == Reader(u[4..], Some(ReadSize(u))))
  }

  ghost predicate LineOK(c: Codec<Message>, k: Conn, l: Line) {
    && k.fwd <= |k.up| && Fits(c, Msgs(k.up))
    && |Used(c, k)| <= l.got <= |Bytes(c, k)|
    && Holding(l.rd, Bytes(c, k)[|Used(c, k)|..l.got])
  }

  lemma {:induction false} FramesJoin<M>(c: Codec<M>, a: seq<M>, b: seq<M>)
    ensures FrameAll(c, a + b) == FrameAll(c, a) + FrameAll(c, b)
    decreases |a|
  {
    if a == [] {
      assert a + b == b;
    } else {
      FramesJoin(c, a[1..], b);
      assert (a + b)[1..] == a[1..] + b;
      assert (Frame(c, a[0]) + FrameAll(c, a[1..])) + FrameAll(c, b)
          == Frame(c, a[0]) + (FrameAll(c, a[1..]) + FrameAll(c, b));
    }
  }

  /** The bytes written are those of the messages handed on and those of the rest. */
  lemma Split(c: Codec<Message>, k: Conn)
    requires k.fwd <= |k.up|
    ensures Bytes(c, k) == Used(c, k) + FrameAll(c, Msgs(k.up[k.fwd..]))
  {
    var a, b := Msgs(k.up[..k.fwd]), Msgs(k.up[k.fwd..]);
    assert Msgs(k.up) == a + b;
    FramesJoin(c, a, b);
  }

  lemma ReceiveKeeps(c: Codec<Message>, k: Conn, l: Line, n: nat)
    requires LineOK(c, k, l) && l.got + n <= |Bytes(c, k)|
    ensures LineOK(c, k, Line(l.got + n, l.rd.(buf := l.rd.buf + Bytes(c, k)[l.got..l.got + n])))
  {
    var s, lo := Bytes(c, k), |Used(c, k)|;
    var u, more := s[lo..l.got], s[l.got..l.got + n];
    assert s[lo..l.got + n] == u + more;
    HoldingMore(l.rd, u, more);
  }

  lemma HoldingMore(rd: Reader, u: seq<byte>, more: seq<byte>)
    requires Holding(rd, u)
    ensures Holding(rd.(buf := rd.buf + more), u + more)
  {
    if |u| >= 4 {
      assert (u + more)[4..] == u[4..] + more;
    }
  }

  /** A read that has a whole payload returns the next message, and leaves what comes after its frame. */
  lemma CompleteKeeps(c: Codec<Message>, k: Conn, l: Line)
    requires Lawful(c) && LineOK(c, k, l) && Ready(l.rd)
    ensures k.fwd < |k.up| && c.dec(l.rd.buf) == Some(k.up[k.fwd].msg)
    ensures LineOK(c, k.(fwd := k.fwd + 1), l.(rd := Reader(l.rd.buf[l.rd.size.value..], None)))
  {
    var s, lo := Bytes(c, k), |Used(c, k)|;
    var u, rest := s[lo..l.got], FrameAll(c, Msgs(k.up[k.fwd..]));
    Split(c, k);
    assert u == rest[..|u|];
    SomethingLeft(c, k);
    var m := k.up[k.fwd].msg;
    assert Msgs(k.up)[k.fwd] == m;
    NextFrame(c, k);
    HeadReturned(c, m, FrameAll(c, Msgs(k.up[k.fwd + 1..])), u);
    var k' := k.(fwd := k.fwd + 1);
    UsedMore(c, k);
    assert s[|Used(c, k')|..l.got] == u[|Frame(c, m)|..];
  }

  lemma SomethingLeft(c: Codec<Message>, k: Conn)
    requires k.fwd <= |k.up| && FrameAll(c, Msgs(k.up[k.fwd..])) != []
    ensures k.fwd < |k.up|
  {
  }

  lemma NextFrame(c: Codec<Message>, k: Conn)
    requires k.fwd < |k.up|
    ensures FrameAll(c, Msgs(k.up[k.fwd..]))
         == Frame(c, k.up[k.fwd].msg) + FrameAll(c, Msgs(k.up[k.fwd + 1..]))
  {
    var a, b := Msgs(k.up[k.fwd..]), Msgs(k.up[k.fwd + 1..]);
    assert a[0] == k.up[k.fwd].msg && a[1..] == b;
  }

  lemma UsedMore(c: Codec<Message>, k: Conn)
    requires k.fwd < |k.up|
    ensures FrameAll(c, Msgs(k.up[..k.fwd + 1])) == Used(c, k) + Frame(c, k.up[k.fwd].msg)
  {
    var a, m := Msgs(k.up[..k.fwd]), k.up[k.fwd].msg;
    assert Msgs(k.up[..k.fwd + 1]) == a + [m];
    FramesJoin(c, a, [m]);
    assert FrameAll(c, [m]) == Frame(c, m) + [];
  }

  /** `u` is a beginning of a stream that starts with the frame of `m`, and long enough for the length it starts
      with. */
  lemma HeadReturned<M(!new)>(c: Codec<M>, m: M, rest: seq<byte>, u: seq<byte>)
    requires Lawful(c) && |c.enc(m)| < I31 && 4 <= |u| && u <= Frame(c, m) + rest && ReadSize(u) <= |u| - 4
    ensures c.dec(u[4..]) == Some(m) && 4 + ReadSize(u) == |Frame(c, m)|
    ensures u[4..][ReadSize(u)..] == u[|Frame(c, m)|..]
  {
    var s, n := Frame(c, m) + rest, |c.enc(m)|;
    FramePrefix(c, m, rest);
    SizeRoundTrip(n);
    assert u[..4] == s[..4];
    assert ReadSize(u) == ReadSize(s) == n;
    assert u[4..] == (c.enc(m) + rest)[..|u| - 4];
    assert u[4..] == c.enc(m) + rest[..|u| - 4 - n];
    assert u[4..][n..] == u[4 + n..];
  }

  /** More writing by the peer changes nothing for the reader. */
  lemma WriteKeeps(c: Codec<Message>, k: Conn, k': Conn, l: Line)
    requires LineOK(c, k, l) && k.up <= k'.up && k'.fwd == k.fwd && Fits(c, Msgs(k'.up))
    ensures LineOK(c, k', l)
  {
    var a, b := Msgs(k.up), Msgs(k'.up[|k.up|..]);
    assert Msgs(k'.up) == a + b;
    FramesJoin(c, a, b);
    assert k'.up[..k.fwd] == k.up[..k.fwd];
    assert Bytes(c, k')[|Used(c, k)|..l.got] == Bytes(c, k)[|Used(c, k)|..l.got];
  }

  /** With everything handed on, abandoning the read changes nothing. */
  lemma CancelKeeps(c: Codec<Message>, k: Conn, l: Line)
    requires LineOK(c, k, l) && k.fwd == |k.up|
    ensures l.rd == Reader([], None) && Cancel(l.rd) == l.rd
  {
    assert k.up[..k.fwd] == k.up;
    assert Bytes(c, k)[|Used(c, k)|..l.got] == [];
  }

  // ---------- over runs ----------

  ghost predicate WiredOK(c: Codec<Message>, w: Wired) {
    && Inv(w.y) && |w.lines| == |w.y.conns|
    && forall i :: 0 <= i < |w.lines| ==> LineOK(c, w.y.conns[i], w.lines[i])
  }

  lemma NewLine(c: Codec<Message>, p: Peer)
    ensures LineOK(c, NewConn(p), Line(0, Reader([], None)))
  {
  }

  /** A step writes at most at the end, and hands nothing on. */
  lemma StepWires(y: Sys, st: Step, j: nat)
    requires Inv(y) && Enabled(y, st) && !st.HandlerForward? && j < |y.conns|
    ensures |Apply(y, st).conns| == |y.conns| + (if st.Accept? then 1 else 0)
    ensures y.conns[j].up <= Apply(y, st).conns[j].up && Apply(y, st).conns[j].fwd == y.conns[j].fwd
  {
    if st.PeerStart? || st.ExecEmit? {
      assert LocalAt(y, st.i);
    } else {
      WritesUnchanged(y, st);
    }
  }

  /** Where a read is abandoned, there was nothing to lose. */
  lemma DoLines(c: Codec<Message>, w: Wired, st: Step)
    requires WiredOK(c, w) && Enabled(w.y, st)
    ensures st.HandlerWrite? ==> w.lines[st.i].rd == Reader([], None)
    ensures LinesThen(w.lines, st) == w.lines + (if st.Accept? then [Line(0, Reader([], None))] else [])
  {
    if st.HandlerWrite? {
      assert LocalAt(w.y, st.i);
      CancelKeeps(c, w.y.conns[st.i], w.lines[st.i]);
    }
  }

  lemma DoLine(c: Codec<Message>, y: Sys, st: Step, j: nat, l: Line)
    requires Inv(y) && Enabled(y, st) && !st.HandlerForward? && j < |y.conns| && LineOK(c, y.conns[j], l)
    requires AllFit(c, Apply(y, st))
    ensures j < |Apply(y, st).conns| && LineOK(c, Apply(y, st).conns[j], l)
  {
    StepWires(y, st, j);
    WriteKeeps(c, y.conns[j], Apply(y, st).conns[j], l);
  }

  lemma DoSizes(y: Sys, st: Step)
    requires Enabled(y, st) && !st.HandlerForward?
    ensures |Apply(y, st).conns| == |y.conns| + (if st.Accept? then 1 else 0)
    ensures st.Accept? ==> Apply(y, st).conns[|y.conns|] == NewConn(st.peer)
  {
    if st.PeerStart? || st.ExecEmit? {
    } else {
      WritesUnchanged(y, st);
    }
  }

  lemma DoKeeps(c: Codec<Message>, w: Wired, st: Step)
    requires WiredOK(c, w) && Possible(c, w, Do(st))
    ensures WiredOK(c, Happen(c, w, Do(st)))
  {
    StepKeeps(w.y, st);
    DoLines(c, w, st);
    DoSizes(w.y, st);
    if st.Accept? {
      NewLine(c, st.peer);
    }
    var z, lines := Apply(w.y, st), LinesThen(w.lines, st);
    forall j | 0 <= j < |lines| ensures LineOK(c, z.conns[j], lines[j]) {
      if j < |w.lines| {
        DoLine(c, w.y, st, j, w.lines[j]);
      }
    }
  }

  /** The reader of one connection moves on, and nothing else changes. */
  lemma LineChanges(c: Codec<Message>, w: Wired, i: nat, l: Line)
    requires WiredOK(c, w) && i < |w.lines| && LineOK(c, w.y.conns[i], l)
    ensures WiredOK(c, w.(lines := w.lines[i := l]))
  {
  }

  lemma ReceiptKeeps(c: Codec<Message>, w: Wired, i: nat, n: nat)
    requires WiredOK(c, w) && Possible(c, w, Receive(i, n))
    ensures WiredOK(c, Happen(c, w, Receive(i, n)))
  {
    ReceiveKeeps(c, w.y.conns[i], w.lines[i], n);
    LineChanges(c, w, i, Happen(c, w, Receive(i, n)).lines[i]);
  }

  lemma TakeKeeps(c: Codec<Message>, k: Conn, l: Line)
    requires LineOK(c, k, l) && l.rd.size.None? && |l.rd.buf| >= 4
    ensures LineOK(c, k, l.(rd := Reader(l.rd.buf[4..], Some(ReadSize(l.rd.buf)))))
  {
  }

  lemma LengthKeeps(c: Codec<Message>, w: Wired, i: nat)
    requires WiredOK(c, w) && Possible(c, w, TakeLength(i))
    ensures WiredOK(c, Happen(c, w, TakeLength(i)))
  {
    TakeKeeps(c, w.y.conns[i], w.lines[i]);
    LineChanges(c, w, i, Happen(c, w, TakeLength(i)).lines[i]);
  }

  lemma CompletionKeeps(c: Codec<Message>, w: Wired, i: nat)
    requires Lawful(c) && WiredOK(c, w) && Possible(c, w, Complete(i))
    ensures Enabled(w.y, HandlerForward(i)) && Happen(c, w, Complete(i)).y == Apply(w.y, HandlerForward(i))
    ensures WiredOK(c, Happen(c, w, Complete(i)))
  {
    assert LineOK(c, w.y.conns[i], w.lines[i]);
    CompleteKeeps(c, w.y.conns[i], w.lines[i]);
    StepKeeps(w.y, HandlerForward(i));
  }

  lemma EventKeeps(c: Codec<Message>, w: Wired, ev: Event)
    requires Lawful(c) && WiredOK(c, w) && Possible(c, w, ev)
    ensures WiredOK(c, Happen(c, w, ev))
    ensures ev.Complete? ==>
      Enabled(w.y, HandlerForward(ev.i)) && Happen(c, w, ev).y == Apply(w.y, HandlerForward(ev.i))
  {
    match ev
    case Do(st) => DoKeeps(c, w, st);
    case Complete(i) => CompletionKeeps(c, w, i);
    case Receive(i, n) => ReceiptKeeps(c, w, i, n);
    case TakeLength(i) => LengthKeeps(c, w, i);
  }

  lemma EventRuns(c: Codec<Message>, w: Wired, ev: Event, steps: seq<Step>)
    requires Lawful(c) && WiredOK(c, w) && Possible(c, w, ev) && Run(Happen(c, w, ev).y, steps)
    ensures Run(w.y, StepOf(ev) + steps) && After(w.y, StepOf(ev) + steps) == After(Happen(c, w, ev).y, steps)
  {
    EventKeeps(c, w, ev);
    if ev.Complete? {
      RunAfter(w.y, HandlerForward(ev.i), steps);
    } else if ev.Do? {
      RunAfter(w.y, ev.st, steps);
    } else {
      assert StepOf(ev) + steps == steps;
    }
  }

  /** The system with the readers in it does nothing the composed system does not do. */
  lemma {:induction false} WiredIsRun(c: Codec<Message>, w: Wired, evs: seq<Event>)
    requires Lawful(c) && WiredOK(c, w) && WiredRun(c, w, evs)
    ensures WiredOK(c, WiredAfter(c, w, evs))
    ensures Run(w.y, StepsOf(evs)) && After(w.y, StepsOf(evs)) == WiredAfter(c, w, evs).y
    decreases |evs|
  {
    if evs == [] {
    } else {
      EventKeeps(c, w, evs[0]);
      WiredIsRun(c, Happen(c, w, evs[0]), evs[1..]);
      EventRuns(c, w, evs[0], StepsOf(evs[1..]));
    }
  }

  lemma RunAfter(y: Sys, st: Step, steps: seq<Step>)
    requires Enabled(y, st) && Run(Apply(y, st), steps)
    ensures Run(y, [st] + steps) && After(y, [st] + steps) == After(Apply(y, st), steps)
  {
    assert ([st] + steps)[1..] == steps;
  }

  /**
    Abandoning reads is harmless, in every run of the system in which the handlers' readers decide for themselves
    when a read completes, and lose the length they took whenever they are abandoned. Every such run is a run of
    the composed system, so all its guarantees hold; a read that completes always returns exactly the next message
    the peer wrote, so no frame is lost, repeated or misaligned; and a read is only ever abandoned with nothing
    received that was not used.
   */
  lemma CancellationHarmless(c: Codec<Message>, w: Wired, evs: seq<Event>)
    requires Lawful(c) && Initial(w.y) && w.lines == [] && WiredRun(c, w, evs)
    ensures var z := WiredAfter(c, w, evs);
      && Run(w.y, StepsOf(evs)) && After(w.y, StepsOf(evs)) == z.y && |z.lines| == |z.y.conns| == |z.y.sv.remotes|
      && (forall i :: 0 <= i < |z.lines| && Ready(z.lines[i].rd) ==>
            z.y.conns[i].fwd < |z.y.conns[i].up|
            && c.dec(z.lines[i].rd.buf) == Some(z.y.conns[i].up[z.y.conns[i].fwd].msg))
      && (forall i :: 0 <= i < |z.lines| && z.y.conns[i].taken < |z.y.sv.remotes[i].chan.log| ==>
            z.lines[i].rd == Reader([], None) && Cancel(z.lines[i].rd) == z.lines[i].rd)
  {
    InitialInv(w.y);
    WiredIsRun(c, w, evs);
    var z := WiredAfter(c, w, evs);
    forall i | 0 <= i < |z.lines| && Ready(z.lines[i].rd)
      ensures z.y.conns[i].fwd < |z.y.conns[i].up|
      ensures c.dec(z.lines[i].rd.buf) == Some(z.y.conns[i].up[z.y.conns[i].fwd].msg)
    {
      CompleteKeeps(c, z.y.conns[i], z.lines[i]);
    }
    forall i | 0 <= i < |z.lines| && z.y.conns[i].taken < |z.y.sv.remotes[i].chan.log|
      ensures z.lines[i].rd == Reader([], None)
    {
      assert LocalAt(z.y, i);
      CancelKeeps(c, z.y.conns[i], z.lines[i]);
    }
  }
}
