/**
  What clients receive. The partner of the relay code is `OutputOf`: the results an executor wrote
  while it worked on one given task, read off its own writings.
 */
module Relay {
  import opened Messages
  import opened Scheduler
  import opened Composition
  import opened Invariant
  import opened ServerSteps
  import opened Runs

  /** The messages of `up` that carry tag `n`, in order. */
  function OutputOf(up: seq<Up>, n: nat): seq<Message> {
    if up == [] then []
    else
      var last := up[|up| - 1];
      OutputOf(up[..|up| - 1], n) + (if last.tag == Some(n) then [last.msg] else [])
  }

  function Msgs(us: seq<Up>): seq<Message> {
    seq(|us|, a requires 0 <= a < |us| => us[a].msg)
  }

  /** If the tag occurs exactly in one stretch, that stretch is the output. */
  lemma {:induction false} OutputIsStretch(up: seq<Up>, n: nat, lo: nat, hi: nat)
    requires lo <= hi <= |up|
    requires forall a :: lo <= a < hi ==> up[a].tag == Some(n)
    requires forall a :: 0 <= a < |up| && !(lo <= a < hi) ==> up[a].tag != Some(n)
    ensures OutputOf(up, n) == Msgs(up[lo..hi])
    decreases |up|
  {
    if up == [] {
    } else {
      var init := up[..|up| - 1];
      if lo == hi {
        OutputIsStretch(init, n, 0, 0);
      } else if hi == |up| {
        OutputIsStretch(init, n, lo, hi - 1);
        assert init[lo..hi - 1] == up[lo..hi - 1];
        assert Msgs(up[lo..hi]) == Msgs(up[lo..hi - 1]) + [up[hi - 1].msg];
      } else {
        OutputIsStretch(init, n, lo, hi);
        assert init[lo..hi] == up[lo..hi];
      }
    }
  }

  /** Client `c`'s task is entry `n` of the log of executor `e`. */
  predicate GivenTo(y: Sys, c: nat, e: nat, n: nat) {
    && c < |y.conns| && y.conns[c].peer.ClientPeer? && e < |y.conns| == |y.sv.remotes| && y.conns[e].peer.ExecPeer?
    && y.conns[c].job.Some? && y.conns[c].job.value.exec == e && y.conns[c].job.value.idx == n
    && n < |y.sv.remotes[e].chan.log| && y.sv.remotes[e].chan.log[n] == Task(0, 0, y.conns[c].peer.details)
  }

  /** `log` is the beginning of `out`, or of it followed by the notice that the executor dropped; and nothing
      comes after a terminal message. */
  predicate Faithful(log: seq<Message>, out: seq<Message>) {
    && (log <= out || (log != [] && log[|log| - 1] == DROP_NOTICE && log[..|log| - 1] <= out))
    && (forall a :: 0 <= a < |log| - 1 ==> !IsTerminal(log[a]))
  }

  lemma JobOutput(cfg: Config, c: nat, rc: Remote, kc: Conn, re: Remote, ke: Conn)
    requires kc.job.Some? && kc.peer.ClientPeer? && JobOK(cfg, c, rc, kc, re, ke)
    ensures var j := kc.job.value;
      && OutputOf(ke.up, j.idx) == Msgs(ke.up[j.start..Hi(j, ke.up)])
      && Faithful(rc.chan.log, OutputOf(ke.up, j.idx))
      && (j.stop.Some? && rc.connType == Client ==>
            rc.chan.log == OutputOf(ke.up, j.idx) && rc.chan.log != [] && IsTerminal(rc.chan.log[|rc.chan.log| - 1]))
      && (j.failed ==> rc.chan.log != [] && rc.chan.log[|rc.chan.log| - 1] == DROP_NOTICE)
  {
    var j := kc.job.value;
    OutputIsStretch(ke.up, j.idx, j.start, Hi(j, ke.up));
    var out := OutputOf(ke.up, j.idx);
    var n := |rc.chan.log| - (if j.failed then 1 else 0);
    assert rc.chan.log[..n] == out[..n] by {
      forall a | 0 <= a < n ensures rc.chan.log[a] == out[a] {
        assert out[a] == ke.up[j.start + a].msg;
      }
    }
    forall a | 0 <= a < |rc.chan.log| - 1 ensures !IsTerminal(rc.chan.log[a]) {
      assert rc.chan.log[a] == ke.up[j.start + a].msg;
    }
  }

  /** Until its executor finishes or drops, a client is sent nothing terminal. */
  lemma JobSilent(cfg: Config, c: nat, rc: Remote, kc: Conn, re: Remote, ke: Conn)
    requires kc.job.Some? && kc.peer.ClientPeer? && JobOK(cfg, c, rc, kc, re, ke)
    requires kc.job.value.stop.None? && !kc.job.value.failed
    ensures forall a :: 0 <= a < |rc.chan.log| ==> !IsTerminal(rc.chan.log[a])
  {
    forall a | 0 <= a < |rc.chan.log| ensures !IsTerminal(rc.chan.log[a]) {
      assert rc.chan.log[a] == ke.up[kc.job.value.start + a].msg;
    }
  }

  /** A client's job in a reachable state, as the relay theorem sees it. */
  predicate RelayedFaithfully(y: Sys, c: nat)
    requires c < |y.conns| == |y.sv.remotes| && y.conns[c].peer.ClientPeer?
  {
    var log := y.sv.remotes[c].chan.log;
    if y.conns[c].job.None? then log == []
    else
      var e, n := y.conns[c].job.value.exec, y.conns[c].job.value.idx;
      && GivenTo(y, c, e, n)
      && Faithful(log, OutputOf(y.conns[e].up, n))
      && forall d :: 0 <= d < |y.conns| && d != c ==> !GivenTo(y, d, e, n)
  }

  lemma InvRelays(y: Sys, c: nat)
    requires Inv(y) && c < |y.conns| && y.conns[c].peer.ClientPeer?
    ensures RelayedFaithfully(y, c)
  {
    assert JobAt(y, c) && LocalAt(y, c);
    if y.conns[c].job.Some? {
      var e := y.conns[c].job.value.exec;
      JobOutput(y.sv.cfg, c, y.sv.remotes[c], y.conns[c], y.sv.remotes[e], y.conns[e]);
      forall d | 0 <= d < |y.conns| && d != c ensures !GivenTo(y, d, e, y.conns[c].job.value.idx) {
        assert DistinctAt(y, if c < d then c else d, if c < d then d else c);
      }
    }
  }

  /**
    Relay correctness: in every reachable state, what was put on a client's channel is a beginning of what one
    executor wrote while working on that client's own task, nothing of any other task, then at most the
    notice that this executor dropped.
   */
  lemma RelayCorrect(y: Sys, steps: seq<Step>, c: nat)
    requires Initial(y) && Run(y, steps)
    requires c < |After(y, steps).conns| == |After(y, steps).sv.remotes| && After(y, steps).conns[c].peer.ClientPeer?
    ensures RelayedFaithfully(After(y, steps), c)
  {
    InitialInv(y);
    RunKeeps(y, steps);
    InvRelays(After(y, steps), c);
  }

  /** A live client whose executor finished has received everything, ending in the terminal message. */
  lemma RelayComplete(y: Sys, steps: seq<Step>, c: nat)
    requires Initial(y) && Run(y, steps)
    ensures var z := After(y, steps);
      c < |z.conns| == |z.sv.remotes| && z.sv.remotes[c].connType == Client
      && z.conns[c].job.Some? && z.conns[c].job.value.stop.Some? ==>
        && z.conns[c].job.value.exec < |z.conns|
        && var log, up := z.sv.remotes[c].chan.log, z.conns[z.conns[c].job.value.exec].up;
           log == OutputOf(up, z.conns[c].job.value.idx) && log != [] && IsTerminal(log[|log| - 1])
  {
    InitialInv(y);
    RunKeeps(y, steps);
    var z := After(y, steps);
    if c < |z.conns| && z.conns[c].job.Some? {
      assert JobAt(z, c);
      var e := z.conns[c].job.value.exec;
      JobOutput(z.sv.cfg, c, z.sv.remotes[c], z.conns[c], z.sv.remotes[e], z.conns[e]);
    }
  }

  // ---------- channels only grow ----------

  predicate Grown(a: State, b: State) {
    && |a.remotes| <= |b.remotes|
    && forall i :: 0 <= i < |a.remotes| ==> a.remotes[i].chan.log <= b.remotes[i].chan.log
  }

  lemma GrownTransitive(a: State, b: State, c: State)
    requires Grown(a, b) && Grown(b, c)
    ensures Grown(a, c)
  {
    forall i | 0 <= i < |a.remotes| ensures a.remotes[i].chan.log <= c.remotes[i].chan.log {
      assert a.remotes[i].chan.log <= b.remotes[i].chan.log <= c.remotes[i].chan.log;
    }
  }

  lemma RegisterGrows(s: State, i: nat, m: Message, now: Nanos)
    requires i < |s.remotes|
    ensures Grown(s, Register(s, i, m, now).state)
  {
    if IsTerminal(m) {
      EndGrows(s, i, m, now);
    } else if m.Dropped? {
      DropGrows(s, i);
    }
  }

  lemma EndGrows(s: State, i: nat, m: Message, now: Nanos)
    requires i < |s.remotes| && IsTerminal(m)
    ensures Grown(s, Register(s, i, m, now).state)
  {
    var o := RelayTerminal(s, i, m, now);
    assert Grown(s, o.state);
    assert Grown(o.state, Complete(o, i).state);
    GrownTransitive(s, o.state, Complete(o, i).state);
  }

  lemma DropGrows(s: State, i: nat)
    requires i < |s.remotes|
    ensures Grown(s, HandleDropped(s, i).state)
  {
    assert Grown(s, NotifyClient(s, i).state);
    assert Grown(NotifyClient(s, i).state, HandleDropped(s, i).state);
    GrownTransitive(s, NotifyClient(s, i).state, HandleDropped(s, i).state);
  }

  lemma {:induction false} AssignGrows(s: State, picks: seq<Ticket>)
    requires ValidPicks(s, picks)
    ensures Grown(s, Assign(s, picks).state)
    decreases |picks|
  {
    if picks == [] {
    } else {
      var o := AssignOne(s, picks[0]);
      assert Grown(s, o.state);
      if o.verdict == Ok {
        AssignGrows(o.state, picks[1..]);
        GrownTransitive(s, o.state, Assign(s, picks).state);
      }
    }
  }

  lemma {:induction false} ReleaseGrows(s: State)
    ensures Grown(s, Release(s).state)
    decreases |s.execQueue|
  {
    if s.execQueue == [] {
    } else {
      var o := ReleaseOne(s);
      assert Grown(s, o.state);
      if o.verdict == Ok {
        ReleaseGrows(o.state);
        GrownTransitive(s, o.state, Release(s).state);
      }
    }
  }

  lemma UpdateGrows(s: State, now: Nanos, picks: seq<Ticket>)
    requires ValidPicks(StartExecs(s), picks)
    ensures Grown(s, Update(s, now, picks).state)
  {
    StartFrame(s);
    AssignGrows(StartExecs(s), picks);
    var s' := Assign(StartExecs(s), picks).state;
    assert Grown(s, s');
    ReleaseGrows(s');
    GrownTransitive(s, s', Release(s').state);
  }

  lemma StepGrows(y: Sys, st: Step)
    requires Enabled(y, st)
    ensures Grown(y.sv, Apply(y, st).sv)
  {
    if st.Deliver? {
      var m := Next(y.sv.cfg, y.conns[st.i]).value;
      RegisterGrows(y.sv, st.i, m, st.clock.stamp);
      var s' := Register(y.sv, st.i, m, st.clock.stamp).state;
      if LeadsToUpdate(m) {
        UpdateGrows(s', st.clock.check, st.picks);
        GrownTransitive(y.sv, s', Update(s', st.clock.check, st.picks).state);
      }
    } else if st.Watchdog? {
      UpdateGrows(y.sv, st.now, st.picks);
    }
  }

  lemma {:induction false} RunGrows(y: Sys, steps: seq<Step>)
    requires Run(y, steps)
    ensures Grown(y.sv, After(y, steps).sv)
    decreases |steps|
  {
    if steps == [] {
    } else {
      var z := Apply(y, steps[0]);
      StepGrows(y, steps[0]);
      RunGrows(z, steps[1..]);
      GrownTransitive(y.sv, z.sv, After(y, steps).sv);
    }
  }

  lemma {:induction false} PeersStay(y: Sys, steps: seq<Step>, c: nat)
    requires Inv(y) && Run(y, steps) && c < |y.conns| && y.conns[c].peer.ClientPeer?
    ensures c < |After(y, steps).conns| && After(y, steps).conns[c].peer.ClientPeer?
    decreases |steps|
  {
    if steps == [] {
    } else {
      PeerStays(y, steps[0]);
      StepKeeps(y, steps[0]);
      PeersStay(Apply(y, steps[0]), steps[1..], c);
    }
  }

  lemma {:induction false} AssignPeers(y: Sys, picks: seq<Ticket>)
    requires ValidPicks(y.sv, picks)
    ensures |AssignSys(y, picks).conns| == |y.conns|
    ensures forall j :: 0 <= j < |y.conns| ==> AssignSys(y, picks).conns[j].peer == y.conns[j].peer
    decreases |picks|
  {
    if picks == [] {
    } else if AssignOne(y.sv, picks[0]).verdict == Ok {
      AssignPeers(AssignOneSys(y, picks[0]), picks[1..]);
    }
  }

  /** Neither what was written nor what was forwarded changes, on any connection. */
  predicate WiresSame(ks: seq<Conn>, ks': seq<Conn>) {
    |ks| <= |ks'| && forall j :: 0 <= j < |ks| ==> ks'[j].up == ks[j].up && ks'[j].fwd == ks[j].fwd
  }

  lemma {:induction false} AssignWires(y: Sys, picks: seq<Ticket>)
    requires ValidPicks(y.sv, picks)
    ensures |AssignSys(y, picks).conns| == |y.conns| && WiresSame(y.conns, AssignSys(y, picks).conns)
    decreases |picks|
  {
    if picks == [] {
    } else {
      var z := AssignOneSys(y, picks[0]);
      assert WiresSame(y.conns, z.conns);
      if AssignOne(y.sv, picks[0]).verdict == Ok {
        AssignWires(z, picks[1..]);
      }
    }
  }

  lemma HandleWires(y: Sys, i: nat, m: Message, clock: Clock, picks: seq<Ticket>)
    requires i < |y.conns| && i < |y.sv.remotes| && PicksFor(y.sv, i, m, clock, picks)
    ensures |HandleSys(y, i, m, clock, picks).conns| == |y.conns|
    ensures WiresSame(y.conns, HandleSys(y, i, m, clock, picks).conns)
  {
    var z := RegisterSys(y, i, m, clock.stamp);
    assert |z.conns| == |y.conns| && WiresSame(y.conns, z.conns);
    if Register(y.sv, i, m, clock.stamp).verdict == Ok && LeadsToUpdate(m) {
      AssignWires(z.(sv := StartExecs(z.sv)), picks);
    }
  }

  /** Only a peer that starts or an executor that writes changes what was written, only the handler's reading what
      was forwarded. */
  lemma WritesUnchanged(y: Sys, st: Step)
    requires Enabled(y, st) && !st.PeerStart? && !st.ExecEmit? && !st.HandlerForward?
    ensures |Apply(y, st).conns| == |y.conns| + (if st.Accept? then 1 else 0)
    ensures WiresSame(y.conns, Apply(y, st).conns)
  {
    if st.Deliver? {
      HandleWires(y, st.i, Next(y.sv.cfg, y.conns[st.i]).value, st.clock, st.picks);
    } else if st.Watchdog? {
      AssignWires(y.(sv := StartExecs(y.sv)), st.picks);
    }
  }

  predicate PeersSame(ks: seq<Conn>, ks': seq<Conn>) {
    |ks| <= |ks'| && forall c :: 0 <= c < |ks| ==> SamePeer(ks[c].peer, ks'[c].peer)
  }

  lemma HandlePeers(y: Sys, i: nat, m: Message, clock: Clock, picks: seq<Ticket>)
    requires i < |y.conns| && i < |y.sv.remotes| && PicksFor(y.sv, i, m, clock, picks)
    ensures |HandleSys(y, i, m, clock, picks).conns| == |y.conns|
    ensures PeersSame(y.conns, HandleSys(y, i, m, clock, picks).conns)
  {
    var z := RegisterSys(y, i, m, clock.stamp);
    assert PeersSame(y.conns, z.conns);
    if Register(y.sv, i, m, clock.stamp).verdict == Ok && LeadsToUpdate(m) {
      AssignPeers(z.(sv := StartExecs(z.sv)), picks);
    }
  }

  /** A connection's peer keeps its program, its codes and its task. */
  lemma PeerStays(y: Sys, st: Step)
    requires Enabled(y, st)
    ensures |Apply(y, st).conns| == |y.conns| + (if st.Accept? then 1 else 0)
    ensures PeersSame(y.conns, Apply(y, st).conns)
  {
    if st.Deliver? {
      HandlePeers(y, st.i, Next(y.sv.cfg, y.conns[st.i]).value, st.clock, st.picks);
    } else if st.Watchdog? {
      AssignPeers(y.(sv := StartExecs(y.sv)), st.picks);
    }
  }

  /** Once a client was sent a terminal message, it is never sent anything again, however the run goes on. */
  lemma NothingAfterTerminal(y: Sys, steps: seq<Step>, more: seq<Step>, c: nat)
    requires Initial(y) && Run(y, steps) && Run(After(y, steps), more)
    requires var z := After(y, steps);
      && c < |z.conns| == |z.sv.remotes| && z.conns[c].peer.ClientPeer?
      && z.sv.remotes[c].chan.log != [] && IsTerminal(z.sv.remotes[c].chan.log[|z.sv.remotes[c].chan.log| - 1])
    ensures c < |After(After(y, steps), more).sv.remotes|
    ensures After(After(y, steps), more).sv.remotes[c].chan.log == After(y, steps).sv.remotes[c].chan.log
  {
    InitialInv(y);
    RunKeeps(y, steps);
    var z := After(y, steps);
    RunKeeps(z, more);
    RunGrows(z, more);
    PeersStay(z, more, c);
    var w := After(z, more);
    InvRelays(w, c);
    var log, log' := z.sv.remotes[c].chan.log, w.sv.remotes[c].chan.log;
    assert log <= log';
    assert log'[|log| - 1] == log[|log| - 1];
  }
}
