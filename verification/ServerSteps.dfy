/** Steps of the server keep the invariant, and never trip an assertion. */
module ServerSteps {
  import opened Messages
  import opened Scheduler
  import opened Composition
  import opened Invariant

  /** What the next inbound message of a connection can be. */
  lemma NextShape(cfg: Config, r: Remote, k: Conn, m: Message)
    requires LocalOK(cfg, r, k) && Next(cfg, k) == Some(m)
    ensures k.peer.ClientPeer? ==> (m.Task? && m.details == k.peer.details && k.done == 0) || m.Dropped?
    ensures m.Task? ==> OutputArgsInRange(m.details)
    ensures k.peer.ExecPeer? ==> (m.YourObedientServant? && k.done == 0) || IsResult(m) || m.Dropped?
    ensures !m.Dropped? ==> k.done < k.fwd <= |k.up| && k.up[k.done].msg == m && Registered(cfg, k.(done := k.done + 1))
    ensures IsResult(m) ==> k.done >= 1 && Registered(cfg, k) && r.paired.Some? && r.connType == Exec
    ensures m.Dropped? && k.done >= 1 ==> k.done == k.fwd && k.eof
  {
    if k.done < k.fwd && k.peer.ExecPeer? && k.done >= 1 {
      assert ResultOK(r.chan.log, k.read, k.up[k.done]);
    }
  }

  predicate Arrives(y: Sys, i: nat, m: Message) {
    Inv(y) && i < |y.conns| && Next(y.sv.cfg, y.conns[i]) == Some(m)
  }

  /** Only connections `i` and `c` may have changed. */
  predicate TwoDiffer(y: Sys, z: Sys, i: nat, c: nat) {
    && Sizes(y) && Sizes(z) && |z.conns| == |y.conns| && z.sv.cfg == y.sv.cfg
    && forall j :: 0 <= j < |y.conns| && j != i && j != c ==>
         z.conns[j] == y.conns[j] && z.sv.remotes[j] == y.sv.remotes[j]
  }

  /** Only connection `i`, which had no job and no partner, changed. */
  lemma OthersUntouched(y: Sys, z: Sys, i: nat)
    requires Rest(y) && Sizes(z) && |z.conns| == |y.conns| && i < |y.conns| && z.sv.cfg == y.sv.cfg
    requires forall j :: 0 <= j < |y.conns| && j != i ==> z.conns[j] == y.conns[j] && z.sv.remotes[j] == y.sv.remotes[j]
    requires y.conns[i].job.None? && z.conns[i].job.None? && z.sv.remotes[i].paired.None?
    requires LocalAt(z, i) && IdleAt(z, i) && QueuedAt(z, i)
    requires y.sv.taskQueue.Keys <= z.sv.taskQueue.Keys
    requires forall e :: e in y.sv.execQueue ==> e in z.sv.execQueue
    ensures Locals(z) && Pairs(z) && Distinct(z)
    ensures forall j :: 0 <= j < |z.conns| ==> IdleAt(z, j) && QueuedAt(z, j)
  {
    forall j | 0 <= j < |z.conns| ensures LocalAt(z, j) && PairAt(z, j) && IdleAt(z, j) && QueuedAt(z, j) {
      assert LocalAt(y, j) && PairAt(y, j) && IdleAt(y, j) && QueuedAt(y, j);
    }
    forall c, d | 0 <= c < d < |z.conns| ensures DistinctAt(z, c, d) {
      assert DistinctAt(y, c, d);
    }
  }

  // ---------- an executor's hello ----------

  lemma HelloRest(y: Sys, i: nat, m: Message, now: Nanos)
    requires Arrives(y, i, m) && m.YourObedientServant?
    ensures Rest(RegisterSys(y, i, m, now))
  {
    var k, r := y.conns[i], y.sv.remotes[i];
    assert LocalAt(y, i);
    NextShape(y.sv.cfg, r, k, m);
    var z := RegisterSys(y, i, m, now);
    assert |k.up| > 1 ==> ResultOK(r.chan.log, k.read, k.up[1]);
    assert |k.up| == 1;
    assert LocalAt(z, i);
    var q, q' := y.sv.execQueue, z.sv.execQueue;
    forall a | 0 <= a < |q'| ensures WaitingOK(z, q'[a]) {
      if a < |q| {
        assert WaitingOK(y, q[a]);
      }
    }
    forall a | 0 <= a < |q| ensures q[a] != i {
      assert WaitingOK(y, q[a]);
    }
    forall t | t in z.sv.taskQueue ensures QueuedOK(z, t) {
      assert QueuedOK(y, t);
    }
    OthersUntouched(y, z, i);
  }

  lemma HelloJob(y: Sys, i: nat, m: Message, now: Nanos, c: nat)
    requires Sizes(y) && i < |y.conns| && y.conns[i].peer.ExecPeer? && y.sv.remotes[i].paired.None?
    requires m.YourObedientServant? && y.conns[i].job.None? && !Registered(y.sv.cfg, y.conns[i])
    requires c < |y.conns| && JobAt(y, c)
    ensures JobAt(RegisterSys(y, i, m, now), c)
  {
  }

  lemma HelloKeeps(y: Sys, i: nat, m: Message, now: Nanos)
    requires Arrives(y, i, m) && m.YourObedientServant?
    ensures Inv(RegisterSys(y, i, m, now))
  {
    HelloRest(y, i, m, now);
    assert LocalAt(y, i);
    NextShape(y.sv.cfg, y.sv.remotes[i], y.conns[i], m);
    forall c | 0 <= c < |y.conns| ensures JobAt(RegisterSys(y, i, m, now), c) {
      assert JobAt(y, c);
      HelloJob(y, i, m, now, c);
    }
  }

  // ---------- a client's task ----------

  lemma SubmitRest(y: Sys, i: nat, m: Message, now: Nanos)
    requires Arrives(y, i, m) && m.Task?
    ensures Rest(RegisterSys(y, i, m, now))
  {
    var k, r := y.conns[i], y.sv.remotes[i];
    assert LocalAt(y, i);
    NextShape(y.sv.cfg, r, k, m);
    var z := RegisterSys(y, i, m, now);
    assert LocalAt(z, i);
    var q := y.sv.execQueue;
    forall a | 0 <= a < |q| ensures WaitingOK(z, q[a]) {
      assert WaitingOK(y, q[a]);
    }
    forall t | t in z.sv.taskQueue ensures QueuedOK(z, t) {
      if t != Ticket(i, m.details) {
        assert QueuedOK(y, t);
      }
    }
    OthersUntouched(y, z, i);
  }

  lemma SubmitJob(y: Sys, i: nat, m: Message, now: Nanos, c: nat)
    requires Sizes(y) && i < |y.conns| && y.conns[i].peer.ClientPeer? && y.sv.remotes[i].paired.None?
    requires m.Task? && OutputArgsInRange(m.details) && y.conns[i].job.None?
    requires c < |y.conns| && JobAt(y, c)
    ensures JobAt(RegisterSys(y, i, m, now), c)
  {
  }

  lemma SubmitKeeps(y: Sys, i: nat, m: Message, now: Nanos)
    requires Arrives(y, i, m) && m.Task?
    ensures Inv(RegisterSys(y, i, m, now))
  {
    SubmitRest(y, i, m, now);
    assert LocalAt(y, i);
    NextShape(y.sv.cfg, y.sv.remotes[i], y.conns[i], m);
    forall c | 0 <= c < |y.conns| ensures JobAt(RegisterSys(y, i, m, now), c) {
      assert JobAt(y, c);
      SubmitJob(y, i, m, now, c);
    }
  }

  // ---------- a result on its way to the client ----------

  /** Connection `i` is an executor with an unfinished task of client `c`. */
  predicate Coupled(y: Sys, i: nat, c: nat)
    requires Sizes(y)
  {
    && i < |y.conns| && c < |y.conns| && c != i
    && y.conns[i].peer.ExecPeer? && y.conns[i].job.None? && y.sv.remotes[i].connType == Exec
    && y.sv.remotes[i].paired == Some(c) && Registered(y.sv.cfg, y.conns[i])
    && y.conns[c].peer.ClientPeer? && y.conns[c].job.Some? && Registered(y.sv.cfg, y.conns[c])
    && y.conns[c].job.value.exec == i && y.conns[c].job.value.stop.None? && !y.conns[c].job.value.failed
    && y.conns[c].fwd == |y.conns[c].up| == 1
  }

  /** Where a result that has arrived belongs. */
  lemma ResultFacts(y: Sys, i: nat, m: Message) returns (c: nat)
    requires Arrives(y, i, m) && IsResult(m)
    ensures Coupled(y, i, c) && Partner(y, i) == Some(c)
    ensures y.conns[i].done < y.conns[i].fwd <= |y.conns[i].up| && y.conns[i].up[y.conns[i].done].msg == m
    ensures y.conns[i].done >= 1 && y.conns[i].read == |y.sv.remotes[i].chan.log|
    ensures IsTerminal(m) ==> y.conns[i].done + 1 == y.conns[i].fwd == |y.conns[i].up| && !Working(y.conns[i])
  {
    var k, r := y.conns[i], y.sv.remotes[i];
    assert LocalAt(y, i);
    NextShape(y.sv.cfg, r, k, m);
    assert PairAt(y, i);
    c := r.paired.value;
    assert JobAt(y, c);
    assert LocalAt(y, c);
    assert ResultOK(r.chan.log, k.read, k.up[k.done]);
  }

  /** The client's remote after a result was forwarded to it. */
  function Given(rc: Remote, m: Message): Remote {
    if rc.connType != Client then rc else if rc.chan.open then Put(rc, m) else rc.(connType := Dead)
  }

  lemma GivenLocal(cfg: Config, rc: Remote, kc: Conn, m: Message, j: Option<Job>)
    requires LocalOK(cfg, rc, kc) && kc.peer.ClientPeer? && kc.job.Some? && j.Some? && kc.fwd == |kc.up| && IsResult(m)
    ensures LocalOK(cfg, Given(rc, m), kc.(job := j))
  {
  }

  lemma OutputShape(y: Sys, i: nat, c: nat, m: Message, now: Nanos)
    requires Sizes(y) && Coupled(y, i, c) && m.TaskOutput?
    ensures var z := RegisterSys(y, i, m, now);
      && Register(y.sv, i, m, now).verdict == Ok
      && z.sv == y.sv.(remotes := y.sv.remotes[c := Given(y.sv.remotes[c], m)])
      && z.conns == y.conns[i := y.conns[i].(done := y.conns[i].done + 1)]
  {
  }

  lemma OutputStill(y: Sys, z: Sys, i: nat, c: nat, m: Message, j: nat)
    requires Forwarded(y, z, i, c, m) && j < |y.conns| && LocalAt(y, j) && (j == c ==> LocalAt(z, c))
    ensures Still(y, z, j) && LocalAt(z, j)
  {
  }

  lemma OutputRest(y: Sys, i: nat, m: Message, now: Nanos)
    requires Arrives(y, i, m) && m.TaskOutput?
    ensures Rest(RegisterSys(y, i, m, now))
  {
    var c := ResultFacts(y, i, m);
    OutputShape(y, i, c, m, now);
    var z := RegisterSys(y, i, m, now);
    assert Forwarded(y, z, i, c, m);
    assert LocalAt(y, c);
    GivenLocal(y.sv.cfg, y.sv.remotes[c], y.conns[c], m, y.conns[c].job);
    forall j | 0 <= j < |y.conns| ensures Still(y, z, j) && LocalAt(z, j) {
      assert LocalAt(y, j);
      OutputStill(y, z, i, c, m, j);
    }
    StillKeepsRest(y, z);
  }

  /** One more handled result reaches the client it belongs to. */
  lemma OutputOwnJob(cfg: Config, c: nat, rc: Remote, kc: Conn, re: Remote, ke: Conn, m: Message)
    requires kc.job.Some? && kc.peer.ClientPeer? && JobOK(cfg, c, rc, kc, re, ke)
    requires kc.job.value.stop.None? && !kc.job.value.failed
    requires ke.done < ke.fwd <= |ke.up| && ke.up[ke.done].msg == m && m.TaskOutput?
    ensures JobOK(cfg, c, Given(rc, m), kc, re, ke.(done := ke.done + 1))
  {
  }

  lemma OtherJob(cfg: Config, c: nat, rc: Remote, kc: Conn, re: Remote, ke: Conn)
    requires kc.job.Some? && kc.peer.ClientPeer? && JobOK(cfg, c, rc, kc, re, ke)
    requires kc.job.value.stop.Some?
    ensures JobOK(cfg, c, rc, kc, re, ke.(done := ke.done + 1))
  {
  }

  /** What forwarding output `m` of executor `i` to client `c` changes. */
  predicate Forwarded(y: Sys, z: Sys, i: nat, c: nat, m: Message) {
    && TwoDiffer(y, z, i, c) && Coupled(y, i, c) && m.TaskOutput?
    && y.conns[i].done < y.conns[i].fwd <= |y.conns[i].up| && y.conns[i].up[y.conns[i].done].msg == m
    && z.sv.remotes[c] == Given(y.sv.remotes[c], m) && z.conns[c] == y.conns[c]
    && z.sv.remotes[i] == y.sv.remotes[i] && z.conns[i] == y.conns[i].(done := y.conns[i].done + 1)
  }

  lemma OutputJobOfClient(y: Sys, z: Sys, i: nat, c: nat, m: Message)
    requires Forwarded(y, z, i, c, m) && JobAt(y, c)
    ensures JobAt(z, c)
  {
    OutputOwnJob(y.sv.cfg, c, y.sv.remotes[c], y.conns[c], y.sv.remotes[i], y.conns[i], m);
    JobFrom(z, c, z.sv.remotes[c], y.conns[c], y.sv.remotes[i], z.conns[i]);
  }

  lemma OutputJobOfExec(y: Sys, z: Sys, i: nat, c: nat, m: Message, d: nat)
    requires Forwarded(y, z, i, c, m) && d < |y.conns| && d != c && JobAt(y, d)
    requires y.conns[d].job.Some? && y.conns[d].job.value.exec == i
    ensures JobAt(z, d)
  {
    OtherJob(y.sv.cfg, d, y.sv.remotes[d], y.conns[d], y.sv.remotes[i], y.conns[i]);
    JobFrom(z, d, y.sv.remotes[d], y.conns[d], y.sv.remotes[i], z.conns[i]);
  }

  /** A job of other connections than the two that changed. */
  lemma JobOfOthers(y: Sys, z: Sys, i: nat, c: nat, d: nat)
    requires TwoDiffer(y, z, i, c) && d < |y.conns| && d != i && d != c && JobAt(y, d)
    requires y.conns[d].job.Some? ==> y.conns[d].job.value.exec != i && y.conns[d].job.value.exec != c
    ensures JobAt(z, d)
  {
    JobElsewhere(y, z, d);
  }

  lemma ExecIsNoClient(y: Sys, c: nat, d: nat)
    requires Sizes(y) && c < |y.conns| && y.conns[c].peer.ClientPeer? && d < |y.conns| && JobAt(y, d)
    ensures y.conns[d].job.Some? ==> y.conns[d].job.value.exec != c
  {
  }

  lemma OutputJob(y: Sys, z: Sys, i: nat, c: nat, m: Message, d: nat)
    requires Forwarded(y, z, i, c, m) && d < |y.conns| && JobAt(y, d)
    ensures JobAt(z, d)
  {
    ExecIsNoClient(y, c, d);
    if d == c {
      OutputJobOfClient(y, z, i, c, m);
    } else if y.conns[d].job.None? {
    } else if y.conns[d].job.value.exec == i {
      OutputJobOfExec(y, z, i, c, m, d);
    } else {
      JobOfOthers(y, z, i, c, d);
    }
  }

  lemma OutputKeeps(y: Sys, i: nat, m: Message, now: Nanos)
    requires Arrives(y, i, m) && m.TaskOutput?
    ensures Inv(RegisterSys(y, i, m, now))
  {
    OutputRest(y, i, m, now);
    var c := ResultFacts(y, i, m);
    OutputShape(y, i, c, m, now);
    var z := RegisterSys(y, i, m, now);
    assert Forwarded(y, z, i, c, m);
    forall d | 0 <= d < |y.conns| ensures JobAt(z, d) {
      assert JobAt(y, d);
      OutputJob(y, z, i, c, m, d);
    }
  }

  // ---------- the end of a task ----------

  lemma EndServer(s: State, i: nat, c: nat, m: Message, now: Nanos)
    requires i < |s.remotes| && c < |s.remotes| && c != i && s.remotes[i].paired == Some(c) && IsTerminal(m)
    ensures var o := Register(s, i, m, now);
      && o.verdict == Ok
      && o.state.remotes == s.remotes[c := Given(s.remotes[c], m)][i := s.remotes[i].(paired := None)]
      && o.state.taskQueue == s.taskQueue && o.state.execQueue == s.execQueue + [i] && o.state.cfg == s.cfg
      && o.state.submitCount == s.submitCount && o.state.finishCount == s.finishCount + 1
      && o.state.running == s.running && o.state.pending == s.pending && o.state.secondPending == s.secondPending
  {
    var o := RelayTerminal(s, i, m, now);
    assert o.verdict == Ok && o.state.remotes == s.remotes[c := Given(s.remotes[c], m)];
  }

  /** What a completion changes about the executor `i` and its client `c`. */
  predicate Ended(y: Sys, z: Sys, i: nat, c: nat, m: Message) {
    && TwoDiffer(y, z, i, c) && Coupled(y, i, c) && IsTerminal(m)
    && y.conns[i].done + 1 == y.conns[i].fwd == |y.conns[i].up| && y.conns[i].up[y.conns[i].done].msg == m
    && y.conns[i].read == |y.sv.remotes[i].chan.log| && !Working(y.conns[i])
    && z.sv.taskQueue == y.sv.taskQueue && z.sv.execQueue == y.sv.execQueue + [i]
    && z.sv.remotes[c] == Given(y.sv.remotes[c], m)
    && z.sv.remotes[i] == y.sv.remotes[i].(paired := None)
    && z.conns[i] == y.conns[i].(done := y.conns[i].done + 1)
    && z.conns[c] == y.conns[c].(job := Some(y.conns[c].job.value.(stop := Some(y.conns[i].done + 1))))
  }

  lemma EndLocals(y: Sys, z: Sys, i: nat, c: nat, m: Message)
    requires Ended(y, z, i, c, m) && Locals(y)
    ensures Locals(z)
  {
    assert LocalAt(y, i) && LocalAt(y, c);
    GivenLocal(y.sv.cfg, y.sv.remotes[c], y.conns[c], m, z.conns[c].job);
    forall j | 0 <= j < |z.conns| ensures LocalAt(z, j) {
      assert LocalAt(y, j);
    }
  }

  lemma EndQueues(y: Sys, z: Sys, i: nat, c: nat, m: Message)
    requires Ended(y, z, i, c, m) && Execs(y) && Tasks(y)
    ensures Execs(z) && Tasks(z)
  {
    var q, q' := y.sv.execQueue, z.sv.execQueue;
    forall a | 0 <= a < |q'| ensures WaitingOK(z, q'[a]) && (a < |q| ==> q[a] != i) {
      assert a < |q| ==> WaitingOK(y, q[a]);
    }
    forall j | 0 <= j < |z.conns| ensures IdleAt(z, j) && QueuedAt(z, j) {
      assert IdleAt(y, j) && QueuedAt(y, j);
    }
    forall t | t in z.sv.taskQueue ensures QueuedOK(z, t) {
      assert QueuedOK(y, t);
    }
  }

  lemma EndPairs(y: Sys, z: Sys, i: nat, c: nat, m: Message)
    requires Ended(y, z, i, c, m) && Pairs(y) && Distinct(y)
    ensures Pairs(z) && Distinct(z)
  {
    forall j | 0 <= j < |z.conns| ensures PairAt(z, j) {
      assert PairAt(y, j);
    }
    forall a, b | 0 <= a < b < |z.conns| ensures DistinctAt(z, a, b) {
      assert DistinctAt(y, a, b);
    }
  }

  lemma EndOwnJob(cfg: Config, c: nat, rc: Remote, kc: Conn, re: Remote, ke: Conn, m: Message)
    requires kc.job.Some? && kc.peer.ClientPeer? && JobOK(cfg, c, rc, kc, re, ke)
    requires kc.job.value.stop.None? && !kc.job.value.failed && !Working(ke)
    requires ke.done + 1 == ke.fwd == |ke.up| && ke.up[ke.done].msg == m && IsTerminal(m)
    ensures JobOK(cfg, c, Given(rc, m), kc.(job := Some(kc.job.value.(stop := Some(ke.done + 1)))),
                  re.(paired := None), ke.(done := ke.done + 1))
  {
  }

  lemma EndOtherJob(cfg: Config, c: nat, rc: Remote, kc: Conn, re: Remote, ke: Conn)
    requires kc.job.Some? && kc.peer.ClientPeer? && JobOK(cfg, c, rc, kc, re, ke)
    requires re.paired != Some(c)
    ensures JobOK(cfg, c, rc, kc, re.(paired := None), ke.(done := ke.done + 1))
  {
  }

  lemma EndJobOfClient(y: Sys, z: Sys, i: nat, c: nat, m: Message)
    requires Ended(y, z, i, c, m) && JobAt(y, c)
    ensures JobAt(z, c)
  {
    EndOwnJob(y.sv.cfg, c, y.sv.remotes[c], y.conns[c], y.sv.remotes[i], y.conns[i], m);
    JobFrom(z, c, z.sv.remotes[c], z.conns[c], z.sv.remotes[i], z.conns[i]);
  }

  lemma EndJobOfExec(y: Sys, z: Sys, i: nat, c: nat, m: Message, d: nat)
    requires Ended(y, z, i, c, m) && d < |y.conns| && d != c && JobAt(y, d)
    requires y.conns[d].job.Some? && y.conns[d].job.value.exec == i
    ensures JobAt(z, d)
  {
    EndOtherJob(y.sv.cfg, d, y.sv.remotes[d], y.conns[d], y.sv.remotes[i], y.conns[i]);
    JobFrom(z, d, y.sv.remotes[d], y.conns[d], z.sv.remotes[i], z.conns[i]);
  }

  lemma EndJob(y: Sys, z: Sys, i: nat, c: nat, m: Message, d: nat)
    requires Ended(y, z, i, c, m) && d < |y.conns| && JobAt(y, d)
    ensures JobAt(z, d)
  {
    ExecIsNoClient(y, c, d);
    if d == c {
      EndJobOfClient(y, z, i, c, m);
    } else if y.conns[d].job.None? {
    } else if y.conns[d].job.value.exec == i {
      EndJobOfExec(y, z, i, c, m, d);
    } else {
      JobOfOthers(y, z, i, c, d);
    }
  }

  lemma EndKeeps(y: Sys, i: nat, m: Message, now: Nanos)
    requires Arrives(y, i, m) && IsTerminal(m)
    ensures Inv(RegisterSys(y, i, m, now))
  {
    var c := ResultFacts(y, i, m);
    var z := RegisterSys(y, i, m, now);
    EndServer(y.sv, i, c, m, now);
    assert Ended(y, z, i, c, m);
    EndLocals(y, z, i, c, m);
    EndQueues(y, z, i, c, m);
    EndPairs(y, z, i, c, m);
    forall d | 0 <= d < |y.conns| ensures JobAt(z, d) {
      assert JobAt(y, d);
      EndJob(y, z, i, c, m, d);
    }
  }

  // ---------- a drop ----------

  lemma QuietDropShape(y: Sys, i: nat, now: Nanos)
    requires Sizes(y) && i < |y.conns| && (y.sv.remotes[i].connType != Exec || y.sv.remotes[i].paired.None?)
    requires Register(y.sv, i, Dropped, now).verdict == Ok
    ensures var z := RegisterSys(y, i, Dropped, now);
      && TwoDiffer(y, z, i, i)
      && z.conns[i] == y.conns[i].(done := y.conns[i].done + 1)
      && z.sv.remotes[i] == y.sv.remotes[i].(connType := Dead)
      && z.sv.taskQueue == y.sv.taskQueue && z.sv.execQueue == y.sv.execQueue
  {
  }

  lemma QuietDropRest(y: Sys, z: Sys, i: nat)
    requires Rest(y) && i < |y.conns| && Next(y.sv.cfg, y.conns[i]) == Some(Dropped)
    requires TwoDiffer(y, z, i, i)
    requires z.conns[i] == y.conns[i].(done := y.conns[i].done + 1)
    requires z.sv.remotes[i] == y.sv.remotes[i].(connType := Dead)
    requires z.sv.taskQueue == y.sv.taskQueue && z.sv.execQueue == y.sv.execQueue
    ensures Rest(z)
  {
    assert LocalAt(y, i);
    QuietDropLocal(y.sv.cfg, y.sv.remotes[i], y.conns[i]);
    forall j | 0 <= j < |y.conns| ensures Still(y, z, j) && LocalAt(z, j) {
      assert LocalAt(y, j);
    }
    StillKeepsRest(y, z);
  }

  /** A drop of anything that is not an executor in use only marks the remote dead. */
  lemma QuietDropKeeps(y: Sys, i: nat, now: Nanos)
    requires Arrives(y, i, Dropped) && (y.sv.remotes[i].connType != Exec || y.sv.remotes[i].paired.None?)
    requires Register(y.sv, i, Dropped, now).verdict == Ok
    ensures Inv(RegisterSys(y, i, Dropped, now))
  {
    var z := RegisterSys(y, i, Dropped, now);
    QuietDropShape(y, i, now);
    QuietDropRest(y, z, i);
    forall d | 0 <= d < |y.conns| ensures JobAt(z, d) {
      assert JobAt(y, d) && LocalAt(y, i);
      QuietDropJob(y, z, i, d);
    }
  }

  lemma QuietDropLocal(cfg: Config, r: Remote, k: Conn)
    requires LocalOK(cfg, r, k) && Next(cfg, k) == Some(Dropped)
    ensures LocalOK(cfg, r.(connType := Dead), k.(done := k.done + 1))
    ensures Registered(cfg, k.(done := k.done + 1)) <==> Registered(cfg, k)
    ensures k.peer.ClientPeer? || !Registered(cfg, k) || k.done + 1 > k.fwd
  {
    NextShape(cfg, r, k, Dropped);
  }

  lemma QuietDropOwn(cfg: Config, c: nat, rc: Remote, kc: Conn, re: Remote, ke: Conn)
    requires kc.job.Some? && kc.peer.ClientPeer? && JobOK(cfg, c, rc, kc, re, ke)
    ensures JobOK(cfg, c, rc.(connType := Dead), kc.(done := kc.done + 1), re, ke)
  {
  }

  lemma QuietDropExec(cfg: Config, c: nat, rc: Remote, kc: Conn, re: Remote, ke: Conn)
    requires kc.job.Some? && kc.peer.ClientPeer? && JobOK(cfg, c, rc, kc, re, ke) && ke.done >= ke.fwd
    ensures JobOK(cfg, c, rc, kc, re.(connType := Dead), ke.(done := ke.done + 1))
  {
  }

  /** What any other drop changes. */
  predicate Marked(y: Sys, z: Sys, i: nat) {
    && TwoDiffer(y, z, i, i) && i < |y.conns|
    && z.conns[i] == y.conns[i].(done := y.conns[i].done + 1)
    && z.sv.remotes[i] == y.sv.remotes[i].(connType := Dead)
  }

  lemma QuietDropJobOfClient(y: Sys, z: Sys, i: nat)
    requires Marked(y, z, i) && JobAt(y, i) && y.conns[i].job.Some?
    ensures JobAt(z, i)
  {
    var e := y.conns[i].job.value.exec;
    QuietDropOwn(y.sv.cfg, i, y.sv.remotes[i], y.conns[i], y.sv.remotes[e], y.conns[e]);
    JobFrom(z, i, z.sv.remotes[i], z.conns[i], y.sv.remotes[e], y.conns[e]);
  }

  lemma QuietDropJobOfExec(y: Sys, z: Sys, i: nat, d: nat)
    requires Marked(y, z, i) && d < |y.conns| && d != i && JobAt(y, d) && y.conns[i].done >= y.conns[i].fwd
    requires y.conns[d].job.Some? && y.conns[d].job.value.exec == i
    ensures JobAt(z, d)
  {
    QuietDropExec(y.sv.cfg, d, y.sv.remotes[d], y.conns[d], y.sv.remotes[i], y.conns[i]);
    JobFrom(z, d, y.sv.remotes[d], y.conns[d], z.sv.remotes[i], z.conns[i]);
  }

  lemma QuietDropJob(y: Sys, z: Sys, i: nat, d: nat)
    requires Marked(y, z, i) && d < |y.conns| && JobAt(y, d)
    requires LocalAt(y, i) && Next(y.sv.cfg, y.conns[i]) == Some(Dropped)
    ensures JobAt(z, d)
  {
    if y.conns[d].job.None? {
    } else if d == i {
      QuietDropJobOfClient(y, z, i);
    } else if y.conns[d].job.value.exec == i {
      NextShape(y.sv.cfg, y.sv.remotes[i], y.conns[i], Dropped);
      QuietDropJobOfExec(y, z, i, d);
    } else {
      JobOfOthers(y, z, i, i, d);
    }
  }

  /** What the drop of executor `i` in the middle of a task changes about it and its client `c`. */
  predicate Broken(y: Sys, z: Sys, i: nat, c: nat) {
    && TwoDiffer(y, z, i, c) && Coupled(y, i, c)
    && y.conns[i].done == y.conns[i].fwd && y.conns[i].eof
    && z.sv.taskQueue == y.sv.taskQueue && z.sv.execQueue == y.sv.execQueue
    && z.sv.remotes[c] == Put(y.sv.remotes[c], DROP_NOTICE)
    && z.sv.remotes[i] == y.sv.remotes[i].(connType := Dead)
    && z.conns[i] == y.conns[i].(done := y.conns[i].done + 1)
    && z.conns[c] == y.conns[c].(job := Some(y.conns[c].job.value.(failed := true)))
  }

  lemma DropFacts(y: Sys, i: nat) returns (c: nat)
    requires Arrives(y, i, Dropped) && y.sv.remotes[i].connType == Exec && y.sv.remotes[i].paired.Some?
    ensures Coupled(y, i, c) && Partner(y, i) == Some(c) && y.conns[i].done == y.conns[i].fwd && y.conns[i].eof
  {
    assert LocalAt(y, i);
    NextShape(y.sv.cfg, y.sv.remotes[i], y.conns[i], Dropped);
    assert PairAt(y, i);
    c := y.sv.remotes[i].paired.value;
    assert JobAt(y, c) && LocalAt(y, c);
  }

  lemma BreakLocals(y: Sys, z: Sys, i: nat, c: nat)
    requires Broken(y, z, i, c) && Locals(y)
    ensures Locals(z)
  {
    forall j | 0 <= j < |z.conns| ensures LocalAt(z, j) {
      assert LocalAt(y, j);
    }
  }

  lemma BreakOwnJob(cfg: Config, c: nat, rc: Remote, kc: Conn, re: Remote, ke: Conn)
    requires kc.job.Some? && kc.peer.ClientPeer? && JobOK(cfg, c, rc, kc, re, ke)
    requires kc.job.value.stop.None? && !kc.job.value.failed && ke.done == ke.fwd
    ensures JobOK(cfg, c, Put(rc, DROP_NOTICE), kc.(job := Some(kc.job.value.(failed := true))),
                  re.(connType := Dead), ke.(done := ke.done + 1))
  {
  }

  lemma BreakOtherJob(cfg: Config, c: nat, rc: Remote, kc: Conn, re: Remote, ke: Conn)
    requires kc.job.Some? && kc.peer.ClientPeer? && JobOK(cfg, c, rc, kc, re, ke)
    requires kc.job.value.stop.Some?
    ensures JobOK(cfg, c, rc, kc, re.(connType := Dead), ke.(done := ke.done + 1))
  {
  }

  lemma BreakJobOfClient(y: Sys, z: Sys, i: nat, c: nat)
    requires Broken(y, z, i, c) && JobAt(y, c)
    ensures JobAt(z, c)
  {
    BreakOwnJob(y.sv.cfg, c, y.sv.remotes[c], y.conns[c], y.sv.remotes[i], y.conns[i]);
    JobFrom(z, c, z.sv.remotes[c], z.conns[c], z.sv.remotes[i], z.conns[i]);
  }

  lemma BreakJobOfExec(y: Sys, z: Sys, i: nat, c: nat, d: nat)
    requires Broken(y, z, i, c) && d < |y.conns| && d != c && JobAt(y, d)
    requires y.conns[d].job.Some? && y.conns[d].job.value.exec == i
    ensures JobAt(z, d)
  {
    BreakOtherJob(y.sv.cfg, d, y.sv.remotes[d], y.conns[d], y.sv.remotes[i], y.conns[i]);
    JobFrom(z, d, y.sv.remotes[d], y.conns[d], z.sv.remotes[i], z.conns[i]);
  }

  lemma BreakJob(y: Sys, z: Sys, i: nat, c: nat, d: nat)
    requires Broken(y, z, i, c) && d < |y.conns| && JobAt(y, d)
    ensures JobAt(z, d)
  {
    ExecIsNoClient(y, c, d);
    if d == c {
      BreakJobOfClient(y, z, i, c);
    } else if y.conns[d].job.None? {
    } else if y.conns[d].job.value.exec == i {
      BreakJobOfExec(y, z, i, c, d);
    } else {
      JobOfOthers(y, z, i, c, d);
    }
  }

  lemma BusyDropKeeps(y: Sys, i: nat, now: Nanos)
    requires Arrives(y, i, Dropped) && y.sv.remotes[i].connType == Exec && y.sv.remotes[i].paired.Some?
    requires Register(y.sv, i, Dropped, now).verdict == Ok
    ensures Inv(RegisterSys(y, i, Dropped, now))
  {
    var c := DropFacts(y, i);
    var z := RegisterSys(y, i, Dropped, now);
    assert Broken(y, z, i, c);
    BreakLocals(y, z, i, c);
    forall j | 0 <= j < |y.conns| ensures Still(y, z, j) {
    }
    StillKeepsRest(y, z);
    forall d | 0 <= d < |y.conns| ensures JobAt(z, d) {
      assert JobAt(y, d);
      BreakJob(y, z, i, c, d);
    }
  }

  // ---------- matching ----------

  /** What giving ticket `t` to executor `e` changes. */
  predicate Matched(y: Sys, z: Sys, t: Ticket, e: nat) {
    var c := t.client;
    && TwoDiffer(y, z, e, c) && t in y.sv.taskQueue && y.sv.execQueue != [] && e == y.sv.execQueue[0]
    && WaitingOK(y, e) && QueuedOK(y, t)
    && z.sv.taskQueue == y.sv.taskQueue - {t} && z.sv.execQueue == y.sv.execQueue[1..]
    && z.sv.remotes[c] == y.sv.remotes[c].(paired := Some(e))
    && z.sv.remotes[e] == Put(y.sv.remotes[e].(paired := Some(c)), Task(0, 0, t.details))
    && z.conns[e] == y.conns[e]
    && z.conns[c] == y.conns[c].(job := Some(Job(e, |y.conns[e].up|, |y.sv.remotes[e].chan.log|, None, false,
                                                 y.sv.remotes[e].connType != Exec)))
  }

  lemma MatchServer(s: State, t: Ticket)
    requires t in s.taskQueue && s.execQueue != [] && t.client < |s.remotes| <= U32 && s.execQueue[0] < |s.remotes|
    requires t.client != s.execQueue[0] && s.remotes[t.client].paired.None? && s.remotes[s.execQueue[0]].paired.None?
    ensures var o, c, e := AssignOne(s, t), t.client, s.execQueue[0];
      if s.remotes[e].chan.open then
        o == Outcome(s.(taskQueue := s.taskQueue - {t}, execQueue := s.execQueue[1..],
                        remotes := s.remotes[c := s.remotes[c].(paired := Some(e))]
                                            [e := Put(s.remotes[e].(paired := Some(c)), Task(0, 0, t.details))]), Ok)
      else o.verdict == SendError
  {
    assert t.client % U32 == t.client && s.execQueue[0] % U32 == s.execQueue[0];
  }

  /** The two assertions about pairing hold, whatever ticket is popped. */
  lemma MatchFacts(y: Sys, t: Ticket)
    requires Inv(y) && t in y.sv.taskQueue && y.sv.execQueue != []
    ensures y.sv.execQueue[0] < |y.sv.remotes|
    ensures var o := AssignOne(y.sv, t);
      && o.verdict == (if y.sv.remotes[y.sv.execQueue[0]].chan.open then Ok else SendError)
      && (o.verdict == Ok ==> Matched(y, AssignOneSys(y, t), t, y.sv.execQueue[0]))
  {
    var e, c := y.sv.execQueue[0], t.client;
    assert WaitingOK(y, e) && QueuedOK(y, t);
    assert LocalAt(y, c);
    MatchServer(y.sv, t);
  }

  lemma MatchLocals(y: Sys, z: Sys, t: Ticket, e: nat)
    requires Matched(y, z, t, e) && Locals(y)
    ensures Locals(z)
  {
    assert LocalAt(y, e);
    assert ExecOK(y.sv.cfg, z.sv.remotes[e], z.conns[e]) by {
      var log, log' := y.sv.remotes[e].chan.log, z.sv.remotes[e].chan.log;
      forall j | 1 <= j < |z.conns[e].up| ensures ResultOK(log', z.conns[e].read, z.conns[e].up[j]) {
        assert ResultOK(log, y.conns[e].read, y.conns[e].up[j]);
      }
    }
    forall j | 0 <= j < |z.conns| ensures LocalAt(z, j) {
      assert LocalAt(y, j);
    }
  }

  lemma MatchQueues(y: Sys, z: Sys, t: Ticket, e: nat)
    requires Matched(y, z, t, e) && Execs(y) && Tasks(y)
    ensures Execs(z) && Tasks(z)
  {
    var q, q' := y.sv.execQueue, z.sv.execQueue;
    forall a | 0 <= a < |q'| ensures WaitingOK(z, q'[a]) && q'[a] != e {
      assert WaitingOK(y, q[a + 1]) && q'[a] == q[a + 1];
    }
    forall j | 0 <= j < |z.conns| ensures IdleAt(z, j) && QueuedAt(z, j) {
      assert IdleAt(y, j) && QueuedAt(y, j);
    }
    forall u | u in z.sv.taskQueue ensures QueuedOK(z, u) {
      assert QueuedOK(y, u);
    }
  }

  lemma MatchPairs(y: Sys, z: Sys, t: Ticket, e: nat)
    requires Matched(y, z, t, e) && Locals(y) && Pairs(y) && Distinct(y) && Jobs(y)
    ensures Pairs(z) && Distinct(z)
  {
    forall j | 0 <= j < |z.conns| ensures PairAt(z, j) {
      assert PairAt(y, j);
    }
    forall a, b | 0 <= a < b < |z.conns| ensures DistinctAt(z, a, b) {
      assert DistinctAt(y, a, b) && JobAt(y, a) && JobAt(y, b);
    }
  }

  lemma MatchOwnJob(y: Sys, z: Sys, t: Ticket, e: nat)
    requires Matched(y, z, t, e) && LocalAt(y, e) && LocalAt(y, t.client)
    ensures JobAt(z, t.client)
  {
    var up := y.conns[e].up;
    forall a | 0 <= a < |up| ensures up[a].tag != Some(|y.sv.remotes[e].chan.log|) {
      assert a >= 1 ==> ResultOK(y.sv.remotes[e].chan.log, y.conns[e].read, up[a]);
    }
  }

  lemma MatchOtherJob(cfg: Config, c: nat, rc: Remote, kc: Conn, re: Remote, ke: Conn, p: nat, m: Message)
    requires kc.job.Some? && kc.peer.ClientPeer? && JobOK(cfg, c, rc, kc, re, ke)
    requires kc.job.value.stop.Some? && p != c
    ensures JobOK(cfg, c, rc, kc, Put(re.(paired := Some(p)), m), ke)
  {
  }

  lemma MatchJob(y: Sys, z: Sys, t: Ticket, e: nat, d: nat)
    requires Matched(y, z, t, e) && d < |y.conns| && JobAt(y, d) && d != t.client
    ensures JobAt(z, d)
  {
    if y.conns[d].job.None? {
    } else if y.conns[d].job.value.exec == e {
      MatchOtherJob(y.sv.cfg, d, y.sv.remotes[d], y.conns[d], y.sv.remotes[e], y.conns[e],
                    t.client, Task(0, 0, t.details));
      JobFrom(z, d, y.sv.remotes[d], y.conns[d], z.sv.remotes[e], y.conns[e]);
    } else {
      JobElsewhere(y, z, d);
    }
  }

  lemma MatchKeeps(y: Sys, t: Ticket)
    requires Inv(y) && t in y.sv.taskQueue && y.sv.execQueue != [] && AssignOne(y.sv, t).verdict == Ok
    ensures Inv(AssignOneSys(y, t))
  {
    var z, e := AssignOneSys(y, t), y.sv.execQueue[0];
    MatchFacts(y, t);
    MatchLocals(y, z, t, e);
    MatchQueues(y, z, t, e);
    MatchPairs(y, z, t, e);
    forall d | 0 <= d < |y.conns| ensures JobAt(z, d) {
      assert JobAt(y, d);
      if d == t.client {
        assert LocalAt(y, e) && LocalAt(y, d);
        MatchOwnJob(y, z, t, e);
      } else {
        MatchJob(y, z, t, e, d);
      }
    }
  }

  // ---------- releasing ----------

  /** What sending the front executor away changes. */
  predicate Freed(y: Sys, z: Sys, e: nat) {
    && TwoDiffer(y, z, e, e) && y.sv.execQueue != [] && e == y.sv.execQueue[0] && WaitingOK(y, e)
    && z.sv.taskQueue == y.sv.taskQueue && z.sv.execQueue == y.sv.execQueue[1..]
    && z.sv.remotes[e] == Put(y.sv.remotes[e].(connType := Dead), PissOff)
    && z.conns[e] == y.conns[e]
  }

  lemma FreeLocals(y: Sys, z: Sys, e: nat)
    requires Freed(y, z, e) && Locals(y)
    ensures Locals(z)
  {
    assert LocalAt(y, e);
    var log, log' := y.sv.remotes[e].chan.log, z.sv.remotes[e].chan.log;
    forall j | 1 <= j < |z.conns[e].up| ensures ResultOK(log', z.conns[e].read, z.conns[e].up[j]) {
      assert ResultOK(log, y.conns[e].read, y.conns[e].up[j]);
    }
    forall j | 0 <= j < |z.conns| ensures LocalAt(z, j) {
      assert LocalAt(y, j);
    }
  }

  lemma FreeRest(y: Sys, z: Sys, e: nat)
    requires Freed(y, z, e) && Execs(y) && Tasks(y) && Pairs(y) && Distinct(y)
    ensures Execs(z) && Tasks(z) && Pairs(z) && Distinct(z)
  {
    var q, q' := y.sv.execQueue, z.sv.execQueue;
    forall a | 0 <= a < |q'| ensures WaitingOK(z, q'[a]) && q'[a] != e {
      assert WaitingOK(y, q[a + 1]) && q'[a] == q[a + 1];
    }
    forall j | 0 <= j < |z.conns| ensures IdleAt(z, j) && QueuedAt(z, j) && PairAt(z, j) {
      assert IdleAt(y, j) && QueuedAt(y, j) && PairAt(y, j);
    }
    forall u | u in z.sv.taskQueue ensures QueuedOK(z, u) {
      assert QueuedOK(y, u);
    }
    forall a, b | 0 <= a < b < |z.conns| ensures DistinctAt(z, a, b) {
      assert DistinctAt(y, a, b);
    }
  }

  lemma FreeJob(y: Sys, z: Sys, e: nat, d: nat)
    requires Freed(y, z, e) && d < |y.conns| && JobAt(y, d)
    ensures JobAt(z, d)
  {
  }

  lemma FreeKeeps(y: Sys, z: Sys)
    requires Inv(y) && y.sv.execQueue != [] && z.conns == y.conns
    requires ReleaseOne(y.sv).verdict == Ok && z.sv == ReleaseOne(y.sv).state
    ensures Inv(z)
  {
    var e := y.sv.execQueue[0];
    assert WaitingOK(y, e);
    assert Freed(y, z, e);
    FreeLocals(y, z, e);
    FreeRest(y, z, e);
    forall d | 0 <= d < |y.conns| ensures JobAt(z, d) {
      assert JobAt(y, d);
      FreeJob(y, z, e, d);
    }
  }
}
