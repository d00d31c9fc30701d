/** The server's guarantees over every run of the composed system. */
module Guarantees {
  import opened Messages
  import opened Scheduler
  import opened Composition
  import opened Invariant
  import opened ServerSteps
  import opened Runs
  import opened Accounts
  import opened Relay

  lemma Reached(y: Sys, steps: seq<Step>)
    requires Initial(y) && Run(y, steps)
    ensures Inv(After(y, steps)) && Sound(After(y, steps))
    ensures IdleDropFree(y, steps) ==> Tidy(After(y, steps))
  {
    InitialAccounts(y);
    RunAccounts(y, steps);
  }

  // ---------- pairing ----------

  /** Pairs are symmetric, no client has two executors, and waiting executors are distinct and unpaired. */
  lemma PairingSound(y: Sys, steps: seq<Step>)
    requires Initial(y) && Run(y, steps)
    ensures var z := After(y, steps); var rs := z.sv.remotes; var q := z.sv.execQueue;
      && |z.conns| == |rs|
      && (forall e :: 0 <= e < |rs| && z.conns[e].peer.ExecPeer? && rs[e].paired.Some? ==>
            rs[e].paired.value < |rs| && rs[rs[e].paired.value].paired == Some(e))
      && (forall e, f ::
            0 <= e < f < |rs| && z.conns[e].peer.ExecPeer? && z.conns[f].peer.ExecPeer? && rs[e].paired.Some?
            ==> rs[f].paired != rs[e].paired)
      && (forall a, b :: 0 <= a < b < |q| ==> q[a] != q[b])
      && (forall a :: 0 <= a < |q| ==> q[a] < |rs| && rs[q[a]].paired.None?)
  {
    Reached(y, steps);
    var z := After(y, steps);
    var rs := z.sv.remotes;
    forall e | 0 <= e < |rs| && z.conns[e].peer.ExecPeer? && rs[e].paired.Some?
      ensures rs[e].paired.value < |rs| && rs[rs[e].paired.value].paired == Some(e)
    {
      assert PairAt(z, e);
      assert JobAt(z, rs[e].paired.value);
    }
    WaitingAreExecs(z);
  }

  // ---------- no panics ----------

  lemma MessageSafe(y: Sys, i: nat, m: Message, clock: Clock, picks: seq<Ticket>)
    requires Arrives(y, i, m) && PicksFor(y.sv, i, m, clock, picks)
    ensures HandleMsg(y.sv, i, m, clock, picks).verdict != AssertFailed
    ensures Tidy(y) ==> HandleMsg(y.sv, i, m, clock, picks).verdict != Underflow
  {
    RegisterSafe(y, i, m, clock.stamp);
    RegisterAccounts(y, i, m, clock.stamp);
    if Register(y.sv, i, m, clock.stamp).verdict == Ok && LeadsToUpdate(m) {
      RegisterKeeps(y, i, m, clock.stamp);
      UpdateKeeps(RegisterSys(y, i, m, clock.stamp), clock.check, picks);
      UpdateAccounts(RegisterSys(y, i, m, clock.stamp), clock.check, picks);
    }
  }

  /**
    Whatever arrives next in a reachable state, and however ties are broken, none of the server's assertions
    fails; without idle drops no counter underflows either.
   */
  lemma ServerNeverPanics(y: Sys, steps: seq<Step>, i: nat, m: Message, clock: Clock, picks: seq<Ticket>)
    requires Initial(y) && Run(y, steps)
    requires var z := After(y, steps);
      i < |z.conns| == |z.sv.remotes| && Next(z.sv.cfg, z.conns[i]) == Some(m) && PicksFor(z.sv, i, m, clock, picks)
    ensures var z := After(y, steps); var v := HandleMsg(z.sv, i, m, clock, picks).verdict;
      v != AssertFailed && (IdleDropFree(y, steps) ==> v != Underflow)
  {
    Reached(y, steps);
    MessageSafe(After(y, steps), i, m, clock, picks);
  }

  lemma WatchdogNeverPanics(y: Sys, steps: seq<Step>, now: Nanos, picks: seq<Ticket>)
    requires Initial(y) && Run(y, steps) && ValidPicks(StartExecs(After(y, steps).sv), picks)
    ensures var v := Update(After(y, steps).sv, now, picks).verdict;
      v != AssertFailed && (IdleDropFree(y, steps) ==> v != Underflow)
  {
    Reached(y, steps);
    UpdateKeeps(After(y, steps), now, picks);
    UpdateAccounts(After(y, steps), now, picks);
  }

  /** Every output a client is sent for a file is for one of its own files. */
  lemma ClientUnderstands(y: Sys, c: nat, a: nat)
    requires Inv(y) && c < |y.conns| && y.conns[c].peer.ClientPeer? && a < |y.sv.remotes[c].chan.log|
    ensures Understands(y.conns[c].peer, y.sv.remotes[c].chan.log[a])
  {
    assert LocalAt(y, c) && JobAt(y, c);
    var j := y.conns[c].job.value;
    assert LocalAt(y, j.exec);
    if a < |y.sv.remotes[c].chan.log| - (if j.failed then 1 else 0) {
      assert y.conns[j.exec].up[j.start + a].tag == Some(j.idx);
      assert ResultOK(y.sv.remotes[j.exec].chan.log, y.conns[j.exec].read, y.conns[j.exec].up[j.start + a]);
    }
  }

  /** No peer is ever sent a message its program cannot handle: an executor only tasks and its dismissal, a client
      only results, and file output only for files it has. This covers every message ever put on the peer's
      channel. */
  lemma PeersNeverPanic(y: Sys, steps: seq<Step>, i: nat)
    requires Initial(y) && Run(y, steps)
    ensures var z := After(y, steps);
      i < |z.conns| == |z.sv.remotes| ==>
        && z.conns[i].read <= z.conns[i].taken <= |z.sv.remotes[i].chan.log|
        && forall a :: 0 <= a < |z.sv.remotes[i].chan.log| ==> Understands(z.conns[i].peer, z.sv.remotes[i].chan.log[a])
  {
    Reached(y, steps);
    var z := After(y, steps);
    if i < |z.conns| {
      assert LocalAt(z, i);
      forall a | 0 <= a < |z.sv.remotes[i].chan.log| ensures Understands(z.conns[i].peer, z.sv.remotes[i].chan.log[a]) {
        if z.conns[i].peer.ClientPeer? {
          ClientUnderstands(z, i, a);
        }
      }
    }
  }

  // ---------- turn taking ----------

  /**
    A message waits in a connection's channel only while nothing the peer wrote is on its way: every message of
    the peer has been read by the handler and handled by the server.
   */
  lemma TurnTakingHolds(y: Sys, steps: seq<Step>, i: nat)
    requires Initial(y) && Run(y, steps)
    ensures var z := After(y, steps);
      i < |z.conns| == |z.sv.remotes| && z.conns[i].taken < |z.sv.remotes[i].chan.log| ==>
        z.conns[i].fwd == |z.conns[i].up| && z.conns[i].done >= z.conns[i].fwd
  {
    Reached(y, steps);
    if i < |After(y, steps).conns| {
      assert LocalAt(After(y, steps), i);
    }
  }

  // ---------- the books ----------

  /** The `running` figure of the status report never goes below zero and is exactly the number of executors
      that have an unfinished task, those that dropped with it included. */
  lemma RunningFigure(y: Sys, steps: seq<Step>)
    requires Initial(y) && Run(y, steps)
    ensures var z := After(y, steps);
      && z.sv.submitCount >= z.sv.finishCount + |z.sv.taskQueue|
      && z.sv.submitCount - z.sv.finishCount - |z.sv.taskQueue| == |Engaged(z)|
  {
    Reached(y, steps);
  }

  lemma ExecutorCount(y: Sys, steps: seq<Step>)
    requires Initial(y) && Run(y, steps) && IdleDropFree(y, steps)
    ensures After(y, steps).sv.running == |LiveExecs(After(y, steps).sv)|
  {
    Reached(y, steps);
  }

  // ---------- shutdown ----------

  /** The server accepted this client's task and has not seen the client go. */
  predicate Expectant(y: Sys, c: nat) {
    c < |y.conns| == |y.sv.remotes| && y.conns[c].peer.ClientPeer? && y.sv.remotes[c].connType == Client
  }

  predicate Answered(y: Sys, c: nat)
    requires c < |y.sv.remotes|
  {
    var log := y.sv.remotes[c].chan.log;
    log != [] && IsTerminal(log[|log| - 1])
  }

  /** The client is paired with a live executor that is paired with it. */
  predicate Served(y: Sys, c: nat)
    requires c < |y.sv.remotes|
  {
    var p := y.sv.remotes[c].paired;
    && p.Some? && p.value < |y.sv.remotes|
    && y.sv.remotes[p.value].connType == Exec && y.sv.remotes[p.value].paired == Some(c)
  }

  /** A live client with a job has its answer exactly if the executor finished or its drop was reported. */
  lemma JobAnswered(cfg: Config, c: nat, rc: Remote, kc: Conn, re: Remote, ke: Conn)
    requires kc.job.Some? && kc.peer.ClientPeer? && JobOK(cfg, c, rc, kc, re, ke) && rc.connType == Client
    ensures rc.chan.log != [] && IsTerminal(rc.chan.log[|rc.chan.log| - 1])
       <==> kc.job.value.stop.Some? || kc.job.value.failed
  {
    JobOutput(cfg, c, rc, kc, re, ke);
    if kc.job.value.stop.None? && !kc.job.value.failed {
      JobSilent(cfg, c, rc, kc, re, ke);
    }
  }

  /** With nothing queued, an expectant client was answered unless its task was lost or is still being worked on. */
  lemma AnsweredUnlessLost(y: Sys, c: nat)
    requires Inv(y) && Sound(y) && y.sv.taskQueue == map[] && Expectant(y, c)
    ensures y.conns[c].job.Some?
    ensures Answered(y, c) <==> NotLost(y.conns[c]) && !Served(y, c)
  {
    assert LocalAt(y, c) && QueuedAt(y, c) && JobAt(y, c) && FateAt(y, c);
    var e := y.conns[c].job.value.exec;
    JobAnswered(y.sv.cfg, c, y.sv.remotes[c], y.conns[c], y.sv.remotes[e], y.conns[e]);
  }

  /** Exactly when shutting down is safe, whatever dropped before: every client still waiting has been told how
      its task ended if and only if no waiting client's task went to an executor already marked dead and none is
      with a live executor that the server miscounted. */
  lemma ShutdownExact(y: Sys, steps: seq<Step>, now: Nanos)
    requires Initial(y) && Run(y, steps) && OkToShutdown(After(y, steps).sv, now)
    ensures var z := After(y, steps);
      (forall c: nat :: Expectant(z, c) ==> Answered(z, c))
      <==> (forall c: nat :: Expectant(z, c) ==> NotLost(z.conns[c]) && !Served(z, c))
  {
    Reached(y, steps);
    var z := After(y, steps);
    forall c: nat | Expectant(z, c) ensures Answered(z, c) <==> NotLost(z.conns[c]) && !Served(z, c) {
      AnsweredUnlessLost(z, c);
    }
  }

  /** Without idle drops, the server never shuts down on a client that is still waiting. */
  lemma ShutdownSafe(y: Sys, steps: seq<Step>, now: Nanos, c: nat)
    requires Initial(y) && Run(y, steps) && IdleDropFree(y, steps)
    requires OkToShutdown(After(y, steps).sv, now) && Expectant(After(y, steps), c)
    ensures Answered(After(y, steps), c)
  {
    Reached(y, steps);
    var z := After(y, steps);
    assert LiveExecs(z.sv) == {};
    assert forall e: nat :: e < |z.sv.remotes| ==> e !in LiveExecs(z.sv) && z.sv.remotes[e].connType != Exec;
    AnsweredUnlessLost(z, c);
    assert NotLost(z.conns[c]);
  }
}
