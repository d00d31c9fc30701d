/** Who gets served: connections whose opening message carried the codes of this server and this user. */
module Admission {
  import opened Messages
  import opened Scheduler
  import opened Composition
  import opened Invariant
  import opened Guarantees
  import Launching

  lemma StepConfig(y: Sys, st: Step)
    requires Enabled(y, st)
    ensures Apply(y, st).sv.cfg == y.sv.cfg
  {
    if st.Watchdog? {
      Launching.UpdateCfg(y.sv, st.now, st.picks);
    } else if st.Deliver? {
      var m := Next(y.sv.cfg, y.conns[st.i]).value;
      var s := Register(y.sv, st.i, m, st.clock.stamp).state;
      if !m.YourObedientServant? {
        Launching.RegisterCounters(y.sv, st.i, m, st.clock.stamp);
      }
      if LeadsToUpdate(m) {
        Launching.UpdateCfg(s, st.clock.check, st.picks);
      }
    }
  }

  lemma {:induction false} ConfigStays(y: Sys, steps: seq<Step>)
    requires Run(y, steps)
    ensures After(y, steps).sv.cfg == y.sv.cfg
    decreases |steps|
  {
    if steps == [] {
    } else {
      StepConfig(y, steps[0]);
      ConfigStays(Apply(y, steps[0]), steps[1..]);
    }
  }

  /** The peer was given the codes of this server and this user; an executor's code may name either queue. */
  predicate HasCodes(cfg: Config, p: Peer) {
    p.user == cfg.userKey && (p.code == cfg.accessCode || (p.ExecPeer? && p.code == cfg.accessCode + 1))
  }

  /** The server treats the connection as a client or an executor, or keeps its task, or ever sent it anything. */
  predicate Admitted(y: Sys, i: nat)
    requires i < |y.conns| == |y.sv.remotes|
  {
    var r := y.sv.remotes[i];
    || r.connType == Client || r.connType == Exec || r.paired.Some? || r.chan.log != []
    || i in y.sv.execQueue || exists t :: t in y.sv.taskQueue && t.client == i
  }

  /** A registered connection's peer has the codes; one whose opening was handled and that is not registered is
      dead. */
  lemma RegisteredHasCodes(cfg: Config, r: Remote, k: Conn)
    requires LocalOK(cfg, r, k) && cfg.accessCode % 2 == 0
    ensures Registered(cfg, k) ==> HasCodes(cfg, k.peer)
    ensures !HasCodes(cfg, k.peer) && k.done > 0 ==> r.connType == Dead
    ensures r.connType == Client || r.connType == Exec || r.paired.Some? || r.chan.log != [] ==> Registered(cfg, k)
  {
    if Registered(cfg, k) {
      assert k.up[0].msg == Opening(k.peer);
    }
  }

  /** Only peers with the right codes are admitted; any other is dead as soon as its opening message was handled. */
  lemma AdmissionControlled(y: Sys, steps: seq<Step>, i: nat)
    requires Initial(y) && Run(y, steps)
    ensures var z := After(y, steps);
      i < |z.conns| == |z.sv.remotes| ==>
        && (Admitted(z, i) ==> HasCodes(z.sv.cfg, z.conns[i].peer))
        && (!HasCodes(z.sv.cfg, z.conns[i].peer) && z.conns[i].done > 0 ==> z.sv.remotes[i].connType == Dead)
  {
    Reached(y, steps);
    ConfigStays(y, steps);
    var z := After(y, steps);
    if i < |z.conns| {
      assert LocalAt(z, i);
      RegisteredHasCodes(z.sv.cfg, z.sv.remotes[i], z.conns[i]);
      if i in z.sv.execQueue {
        assert WaitingOK(z, i);
      }
      if t :| t in z.sv.taskQueue && t.client == i {
        assert QueuedOK(z, t);
      }
    }
  }

  /** A peer with the right codes whose opening message was read and handled is registered. */
  lemma CodesRegister(cfg: Config, r: Remote, k: Conn)
    requires LocalOK(cfg, r, k) && cfg.accessCode % 2 == 0 && HasCodes(cfg, k.peer) && k.fwd >= 1 && k.done >= 1
    ensures Registered(cfg, k)
  {
    assert k.up[0].msg == Opening(k.peer);
  }

  /**
    Nobody with the right codes is turned away. In every reachable state, of the peers that have them and whose
    opening message was read and handled, a client's task is queued or was given to an executor, and an executor
    is enrolled, of whichever queue, until its drop is handled or it is dismissed.
   */
  lemma AdmissionGranted(y: Sys, steps: seq<Step>, i: nat)
    requires Initial(y) && Run(y, steps)
    ensures var z := After(y, steps);
      i < |z.conns| == |z.sv.remotes| && HasCodes(z.sv.cfg, z.conns[i].peer)
      && z.conns[i].fwd >= 1 && z.conns[i].done >= 1 ==>
        var k, r := z.conns[i], z.sv.remotes[i];
        if k.peer.ClientPeer? then Ticket(i, k.peer.details) in z.sv.taskQueue || k.job.Some?
        else r.connType == Exec
             || (r.connType == Dead && (k.done > k.fwd || (r.chan.log != [] && r.chan.log[|r.chan.log| - 1].PissOff?)))
  {
    Reached(y, steps);
    ConfigStays(y, steps);
    var z := After(y, steps);
    if i < |z.conns| && HasCodes(z.sv.cfg, z.conns[i].peer) && z.conns[i].fwd >= 1 && z.conns[i].done >= 1 {
      assert LocalAt(z, i) && QueuedAt(z, i);
      CodesRegister(z.sv.cfg, z.sv.remotes[i], z.conns[i]);
    }
  }
}
