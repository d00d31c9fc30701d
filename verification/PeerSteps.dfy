/** Steps of the peers and the connection handlers keep the invariant. */
module PeerSteps {
  import opened Messages
  import opened Scheduler
  import opened Composition
  import opened Invariant

  /** A change of one connection that the server cannot see. */
  predicate Unseen(cfg: Config, r: Remote, k: Conn, k': Conn) {
    && LocalOK(cfg, r, k') && SamePeer(k.peer, k'.peer)
    && k'.job == k.job && k'.done == k.done && k.read <= k'.read
    && (Registered(cfg, k) <==> Registered(cfg, k')) && (k.done > k.fwd ==> k'.done > k'.fwd)
  }

  lemma UnseenKeepsRest(y: Sys, i: nat, k: Conn)
    requires Rest(y) && i < |y.conns| && Unseen(y.sv.cfg, y.sv.remotes[i], y.conns[i], k)
    ensures Rest(SetConn(y, i, k))
  {
    var z := SetConn(y, i, k);
    forall j | 0 <= j < |y.conns| ensures Still(y, z, j) && LocalAt(z, j) {
      assert LocalAt(y, j);
    }
    StillKeepsRest(y, z);
  }

  /** Nothing a job depends on changes. */
  predicate Quiet(k: Conn, k': Conn) {
    && k'.up == k.up && k'.read == k.read && Handled(k') == Handled(k) && (Working(k') ==> Working(k))
  }

  lemma QuietExecJob(cfg: Config, c: nat, rc: Remote, kc: Conn, re: Remote, ke: Conn, ke': Conn)
    requires kc.job.Some? && kc.peer.ClientPeer? && JobOK(cfg, c, rc, kc, re, ke)
    requires Unseen(cfg, re, ke, ke') && Quiet(ke, ke')
    ensures JobOK(cfg, c, rc, kc, re, ke')
  {
  }

  lemma QuietClientJob(cfg: Config, c: nat, rc: Remote, kc: Conn, kc': Conn, re: Remote, ke: Conn)
    requires kc.job.Some? && kc.peer.ClientPeer? && JobOK(cfg, c, rc, kc, re, ke)
    requires SamePeer(kc.peer, kc'.peer) && kc'.job == kc.job
    ensures JobOK(cfg, c, rc, kc', re, ke)
  {
  }

  lemma QuietJobAt(y: Sys, i: nat, k: Conn, c: nat)
    requires Sizes(y) && i < |y.conns| && Unseen(y.sv.cfg, y.sv.remotes[i], y.conns[i], k) && Quiet(y.conns[i], k)
    requires c < |y.conns| && JobAt(y, c)
    ensures JobAt(SetConn(y, i, k), c)
  {
    var z := SetConn(y, i, k);
    if y.conns[c].job.None? {
    } else {
      var e := y.conns[c].job.value.exec;
      if c == i {
        QuietClientJob(y.sv.cfg, c, y.sv.remotes[c], y.conns[c], k, y.sv.remotes[e], y.conns[e]);
        JobFrom(z, c, y.sv.remotes[c], k, y.sv.remotes[e], y.conns[e]);
      } else if e == i {
        QuietExecJob(y.sv.cfg, c, y.sv.remotes[c], y.conns[c], y.sv.remotes[e], y.conns[e], k);
        JobFrom(z, c, y.sv.remotes[c], y.conns[c], y.sv.remotes[e], k);
      } else {
        JobElsewhere(y, z, c);
      }
    }
  }

  lemma QuietKeepsJobs(y: Sys, i: nat, k: Conn)
    requires Inv(y) && i < |y.conns| && Unseen(y.sv.cfg, y.sv.remotes[i], y.conns[i], k) && Quiet(y.conns[i], k)
    ensures Inv(SetConn(y, i, k))
  {
    UnseenKeepsRest(y, i, k);
    forall c | 0 <= c < |y.conns| ensures JobAt(SetConn(y, i, k), c) {
      assert JobAt(y, c);
      QuietJobAt(y, i, k, c);
    }
  }

  lemma StartKeeps(y: Sys, i: nat)
    requires Inv(y) && Enabled(y, PeerStart(i))
    ensures Inv(Apply(y, PeerStart(i)))
  {
    var k, r := y.conns[i], y.sv.remotes[i];
    assert LocalAt(y, i);
    var k' := Started(k);
    assert LocalOK(y.sv.cfg, r, k');
    UnseenKeepsRest(y, i, k');
    var z := SetConn(y, i, k');
    forall c | 0 <= c < |y.conns| ensures JobAt(z, c) {
      assert JobAt(y, c);
    }
  }

  lemma ReadLocal(cfg: Config, r: Remote, k: Conn)
    requires LocalOK(cfg, r, k) && Listening(k.peer) && k.read < k.taken
    requires Understands(k.peer, r.chan.log[k.read])
    requires k.peer.ExecPeer? && r.chan.log[k.read].Task? ==>
      r.chan.log[k.read].taskCode == 0 && r.chan.log[k.read].taskUser == 0
    ensures LocalOK(cfg, r, k.(read := k.read + 1, peer := AfterReading(k.peer, k.read, r.chan.log[k.read])))
  {
    var k' := k.(read := k.read + 1, peer := AfterReading(k.peer, k.read, r.chan.log[k.read]));
    if k.peer.ExecPeer? {
      forall j | 1 <= j < |k.up| ensures ResultOK(r.chan.log, k'.read, k'.up[j]) {
        assert ResultOK(r.chan.log, k.read, k.up[j]);
      }
      assert |k.up| > 1 ==> ResultOK(r.chan.log, k.read, k.up[|k.up| - 1]);
    }
  }

  /** The only task an executor has still to read is the one it is paired for. */
  lemma UnreadTask(y: Sys, i: nat)
    requires Inv(y) && i < |y.conns| && y.conns[i].peer.ExecPeer?
    requires y.conns[i].read < |y.sv.remotes[i].chan.log| && y.sv.remotes[i].chan.log[y.conns[i].read].Task?
    ensures y.sv.remotes[i].paired.Some?
    ensures y.sv.remotes[i].chan.log[y.conns[i].read].taskCode == 0
    ensures y.sv.remotes[i].chan.log[y.conns[i].read].taskUser == 0
  {
    assert LocalAt(y, i);
    assert PairAt(y, i);
    assert JobAt(y, y.sv.remotes[i].paired.value);
  }

  lemma ReadJob(cfg: Config, c: nat, rc: Remote, kc: Conn, re: Remote, ke: Conn)
    requires kc.job.Some? && kc.peer.ClientPeer? && JobOK(cfg, c, rc, kc, re, ke)
    requires LocalOK(cfg, re, ke) && Listening(ke.peer)
    requires ke.read < |re.chan.log| && Understands(ke.peer, re.chan.log[ke.read])
    ensures var p := AfterReading(ke.peer, ke.read, re.chan.log[ke.read]);
      JobOK(cfg, c, rc, kc, re, ke.(read := ke.read + 1, peer := p))
  {
    var j := kc.job.value;
    assert j.stop.Some? ==> ResultOK(re.chan.log, ke.read, ke.up[j.start]);
  }

  lemma ReadJobOfExec(y: Sys, i: nat, c: nat)
    requires Sizes(y) && c < |y.conns| && JobAt(y, c) && i < |y.conns|
    requires LocalOK(y.sv.cfg, y.sv.remotes[i], y.conns[i]) && Enabled(y, PeerRead(i))
    requires y.conns[c].job.Some? && y.conns[c].job.value.exec == i
    ensures JobAt(Apply(y, PeerRead(i)), c)
  {
    var z := Apply(y, PeerRead(i));
    ReadJob(y.sv.cfg, c, y.sv.remotes[c], y.conns[c], y.sv.remotes[i], y.conns[i]);
    JobFrom(z, c, y.sv.remotes[c], y.conns[c], y.sv.remotes[i], z.conns[i]);
  }

  lemma ReadJobOfClient(y: Sys, c: nat)
    requires Sizes(y) && c < |y.conns| && JobAt(y, c) && Enabled(y, PeerRead(c)) && y.conns[c].job.Some?
    ensures JobAt(Apply(y, PeerRead(c)), c)
  {
    var z, e := Apply(y, PeerRead(c)), y.conns[c].job.value.exec;
    QuietClientJob(y.sv.cfg, c, y.sv.remotes[c], y.conns[c], z.conns[c], y.sv.remotes[e], y.conns[e]);
    JobFrom(z, c, y.sv.remotes[c], z.conns[c], y.sv.remotes[e], y.conns[e]);
  }

  lemma ReadJobAt(y: Sys, i: nat, c: nat)
    requires Sizes(y) && c < |y.conns| && JobAt(y, c) && i < |y.conns|
    requires LocalOK(y.sv.cfg, y.sv.remotes[i], y.conns[i]) && Enabled(y, PeerRead(i))
    ensures JobAt(Apply(y, PeerRead(i)), c)
  {
    if y.conns[c].job.None? {
    } else if y.conns[c].job.value.exec == i {
      ReadJobOfExec(y, i, c);
    } else if c == i {
      ReadJobOfClient(y, c);
    } else {
      JobElsewhere(y, Apply(y, PeerRead(i)), c);
    }
  }

  lemma ReadKeeps(y: Sys, i: nat)
    requires Inv(y) && Enabled(y, PeerRead(i))
    ensures Inv(Apply(y, PeerRead(i)))
  {
    var k, r := y.conns[i], y.sv.remotes[i];
    assert LocalAt(y, i);
    var k' := k.(read := k.read + 1, peer := AfterReading(k.peer, k.read, r.chan.log[k.read]));
    if k.peer.ExecPeer? && r.chan.log[k.read].Task? {
      UnreadTask(y, i);
    }
    ReadLocal(y.sv.cfg, r, k);
    UnseenKeepsRest(y, i, k');
    forall c | 0 <= c < |y.conns| ensures JobAt(Apply(y, PeerRead(i)), c) {
      ReadJobAt(y, i, c);
    }
  }

  lemma EmitLocal(cfg: Config, r: Remote, k: Conn, m: Message)
    requires LocalOK(cfg, r, k) && MayEmit(k, m)
    ensures LocalOK(cfg, r, Emitted(k, m))
  {
    var k' := Emitted(k, m);
    forall j | 1 <= j < |k'.up| ensures ResultOK(r.chan.log, k'.read, k'.up[j]) {
      if j < |k.up| {
        assert ResultOK(r.chan.log, k.read, k.up[j]);
      }
    }
  }

  lemma EmitJob(cfg: Config, c: nat, rc: Remote, kc: Conn, re: Remote, ke: Conn, m: Message)
    requires kc.job.Some? && kc.peer.ClientPeer? && JobOK(cfg, c, rc, kc, re, ke)
    requires LocalOK(cfg, re, ke) && MayEmit(ke, m)
    ensures JobOK(cfg, c, rc, kc, re, Emitted(ke, m))
  {
    var j, k' := kc.job.value, Emitted(ke, m);
    assert ke.peer.phase.job == |re.chan.log| - 1;
    if j.stop.None? {
      if LastIs(ke.up, j.idx) {
        assert !IsTerminal(ke.up[|ke.up| - 1].msg);
      }
      assert Segment(j, k'.up);
    } else {
      assert Segment(j, k'.up);
    }
  }

  lemma EmitJobAt(y: Sys, i: nat, m: Message, c: nat)
    requires Sizes(y) && i < |y.conns| && LocalAt(y, i) && MayEmit(y.conns[i], m) && c < |y.conns| && JobAt(y, c)
    requires LocalAt(y, c)
    ensures JobAt(SetConn(y, i, Emitted(y.conns[i], m)), c)
  {
    var z, k := SetConn(y, i, Emitted(y.conns[i], m)), y.conns[c];
    if k.job.None? {
    } else if k.job.value.exec == i {
      EmitJob(y.sv.cfg, c, y.sv.remotes[c], k, y.sv.remotes[i], y.conns[i], m);
      JobFrom(z, c, y.sv.remotes[c], k, y.sv.remotes[i], z.conns[i]);
    } else {
      JobElsewhere(y, z, c);
    }
  }

  lemma EmitKeeps(y: Sys, i: nat, m: Message)
    requires Inv(y) && Enabled(y, ExecEmit(i, m))
    ensures Inv(Apply(y, ExecEmit(i, m)))
  {
    var k, r := y.conns[i], y.sv.remotes[i];
    assert LocalAt(y, i);
    EmitLocal(y.sv.cfg, r, k, m);
    UnseenKeepsRest(y, i, Emitted(k, m));
    var z := SetConn(y, i, Emitted(k, m));
    forall c | 0 <= c < |y.conns| ensures JobAt(z, c) {
      assert JobAt(y, c) && LocalAt(y, c);
      EmitJobAt(y, i, m, c);
    }
  }

  lemma DieKeeps(y: Sys, i: nat)
    requires Inv(y) && Enabled(y, PeerDie(i))
    ensures Inv(Apply(y, PeerDie(i)))
  {
    assert LocalAt(y, i);
    QuietKeepsJobs(y, i, y.conns[i].(peer := Died(y.conns[i].peer)));
  }

  predicate HandlerStep(st: Step) {
    st.HandlerForward? || st.HandlerWrite? || st.HandlerEof? || st.HandlerFail?
  }

  lemma HandlerKeeps(y: Sys, st: Step)
    requires Inv(y) && HandlerStep(st) && Enabled(y, st)
    ensures Inv(Apply(y, st))
  {
    assert LocalAt(y, st.i);
    var z := Apply(y, st);
    assert LocalOK(y.sv.cfg, y.sv.remotes[st.i], z.conns[st.i]);
    QuietKeepsJobs(y, st.i, z.conns[st.i]);
  }

  lemma CloseKeepsRest(y: Sys, i: nat)
    requires Rest(y) && Enabled(y, HandlerClose(i))
    ensures Rest(Apply(y, HandlerClose(i)))
  {
    var z := Apply(y, HandlerClose(i));
    forall j | 0 <= j < |y.conns| ensures Still(y, z, j) && LocalAt(z, j) {
      assert LocalAt(y, j);
    }
    StillKeepsRest(y, z);
  }

  lemma CloseJobAt(y: Sys, i: nat, c: nat)
    requires Sizes(y) && c < |y.conns| && JobAt(y, c) && Enabled(y, HandlerClose(i))
    ensures JobAt(Apply(y, HandlerClose(i)), c)
  {
  }

  lemma CloseKeeps(y: Sys, i: nat)
    requires Inv(y) && Enabled(y, HandlerClose(i))
    ensures Inv(Apply(y, HandlerClose(i)))
  {
    CloseKeepsRest(y, i);
    forall c | 0 <= c < |y.conns| ensures JobAt(Apply(y, HandlerClose(i)), c) {
      CloseJobAt(y, i, c);
    }
  }

  lemma AcceptKeeps(y: Sys, p: Peer)
    requires Inv(y) && Enabled(y, Accept(p))
    ensures Inv(Apply(y, Accept(p)))
  {
    var z := Apply(y, Accept(p));
    var n := |y.conns|;
    forall j | 0 <= j < |z.conns| ensures LocalAt(z, j) && PairAt(z, j) && IdleAt(z, j) && QueuedAt(z, j) {
      assert j < n ==> LocalAt(y, j) && PairAt(y, j) && IdleAt(y, j) && QueuedAt(y, j);
    }
    forall j | 0 <= j < |z.conns| ensures JobAt(z, j) {
      assert j < n ==> JobAt(y, j);
    }
    var q := y.sv.execQueue;
    forall a | 0 <= a < |q| ensures WaitingOK(z, q[a]) {
      assert WaitingOK(y, q[a]);
    }
    forall t | t in y.sv.taskQueue ensures QueuedOK(z, t) {
      assert QueuedOK(y, t);
    }
    forall c, d | 0 <= c < d < |z.conns| ensures DistinctAt(z, c, d) {
      assert d < n ==> DistinctAt(y, c, d);
    }
  }
}
