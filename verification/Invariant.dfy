/** What holds in every reachable state of the composed system. */
module Invariant {
  import opened Messages
  import opened Scheduler
  import opened Composition

  /** The server handled this connection's opening message and accepted its codes. */
  predicate Registered(cfg: Config, k: Conn) {
    k.done >= 1 && 1 <= k.fwd <= |k.up| && !Screen(cfg, k.up[0].msg).Dropped?
  }

  /** How many of the peer's messages the server handled. */
  function Handled(k: Conn): nat { Min(k.done, k.fwd) }

  // ---------- one connection ----------

  predicate Marks(r: Remote, k: Conn) {
    && k.fwd <= |k.up|
    && k.done <= k.fwd + (if k.eof then 1 else 0)
    && (k.eof ==> !k.alive)
    && k.read <= k.taken <= |r.chan.log|
  }

  /** While the peer has a message still to read, everything it ever wrote has been handled. */
  predicate TurnTaking(r: Remote, k: Conn) {
    k.read < |r.chan.log| ==> k.fwd == |k.up| && k.done >= k.fwd
  }

  predicate Typed(cfg: Config, r: Remote, k: Conn) {
    && (r.connType == Pending <==> k.done == 0)
    && (!Registered(cfg, k) ==> r.chan.log == [] && r.paired == None && (r.connType == Pending || r.connType == Dead))
  }

  /** A result is tagged with a task its executor has read, a completion carries that task's own id, and file
      output is for one of that task's own files. */
  predicate ResultOK(log: seq<Message>, read: nat, u: Up) {
    && IsResult(u.msg) && u.tag.Some? && u.tag.value < read && u.tag.value < |log|
    && log[u.tag.value].Task?
    && (u.msg.TaskDone? ==> u.msg.targetId == TargetId(log[u.tag.value].details))
    && IndexInRange(log[u.tag.value].details, u.msg)
  }

  predicate PhaseOK(r: Remote, k: Conn)
    requires k.peer.ExecPeer?
  {
    match k.peer.phase
    case Booting => k.up == []
    case Idle => k.up != [] && (|k.up| == 1 || IsTerminal(k.up[|k.up| - 1].msg))
    case Busy(n, d) =>
      && k.up != [] && n + 1 == k.read == |r.chan.log| && r.chan.log[n] == Task(0, 0, d)
      && (LastIs(k.up, n) ==> !IsTerminal(k.up[|k.up| - 1].msg))
    case Gone => true
  }

  predicate Dismissed(log: seq<Message>) { log != [] && log[|log| - 1].PissOff? }

  predicate ExecOK(cfg: Config, r: Remote, k: Conn)
    requires k.peer.ExecPeer?
  {
    && r.connType != Client && k.job == None
    && (k.up != [] ==> k.up[0] == Up(Opening(k.peer), None))
    && (forall j :: 1 <= j < |k.up| ==> ResultOK(r.chan.log, k.read, k.up[j]))
    && (forall j :: 0 <= j < |r.chan.log| ==> r.chan.log[j].Task? || r.chan.log[j].PissOff?)
    && |r.chan.log| <= k.read + 1
    && PhaseOK(r, k)
    && (Registered(cfg, k) && r.paired.None? ==>
          && k.fwd == |k.up| && k.done >= k.fwd && !k.peer.phase.Busy?
          && (k.read < |r.chan.log| ==> r.chan.log[k.read].PissOff?))
    && (Registered(cfg, k) && r.connType == Dead && r.paired.Some? ==> k.done > k.fwd)
    && (Registered(cfg, k) && r.connType == Dead ==> k.done > k.fwd || Dismissed(r.chan.log))
  }

  predicate ClientOK(cfg: Config, r: Remote, k: Conn)
    requires k.peer.ClientPeer?
  {
    && r.connType != Exec && OutputArgsInRange(k.peer.details)
    && (k.up == [] || k.up == [Up(Opening(k.peer), None)])
    && (k.peer.at == Fresh ==> k.up == [])
    && (k.peer.at == Waiting ==> k.up != [])
    && (forall j :: 0 <= j < |r.chan.log| ==> IsResult(r.chan.log[j]))
    && (k.job == None ==> r.chan.log == [] && r.paired == None)
    && (k.job.Some? ==> Registered(cfg, k))
  }

  predicate LocalOK(cfg: Config, r: Remote, k: Conn) {
    && Marks(r, k) && TurnTaking(r, k) && Typed(cfg, r, k)
    && (if k.peer.ExecPeer? then ExecOK(cfg, r, k) else ClientOK(cfg, r, k))
  }

  // ---------- a client's job ----------

  /** The end of the stretch of the executor's writings that belongs to job `j`, so far. */
  function Hi(j: Job, up: seq<Up>): nat {
    if j.stop.Some? then j.stop.value else |up|
  }

  /** Exactly the entries of the stretch carry the job's tag, and only its last can be terminal. */
  predicate Segment(j: Job, up: seq<Up>) {
    && 1 <= j.start <= Hi(j, up) <= |up|
    && (forall a :: j.start <= a < Hi(j, up) ==> up[a].tag == Some(j.idx))
    && (forall a :: 0 <= a < |up| && !(j.start <= a < Hi(j, up)) ==> up[a].tag != Some(j.idx))
    && (forall a :: j.start <= a < Hi(j, up) - 1 ==> !IsTerminal(up[a].msg))
    && (j.stop.Some? ==> j.start < j.stop.value && IsTerminal(up[j.stop.value - 1].msg))
  }

  /** How much of the stretch the server handled. */
  function Reach(j: Job, ke: Conn): nat {
    if j.stop.Some? then j.stop.value else Handled(ke)
  }

  /** What was put on the client's channel: the handled part of the stretch, in order (all of it while the
      client lives), then the drop notice if there was one. */
  predicate Relayed(j: Job, rc: Remote, ke: Conn) {
    var n := |rc.chan.log| - (if j.failed then 1 else 0);
    && 0 <= n && j.start + n <= Reach(j, ke) <= |ke.up|
    && (forall a :: 0 <= a < n ==> rc.chan.log[a] == ke.up[j.start + a].msg)
    && (j.failed ==> rc.chan.log[n] == DROP_NOTICE && j.stop.None? && ke.done > ke.fwd)
    && (rc.connType == Client ==> j.start + n == Reach(j, ke))
  }

  predicate Working(k: Conn) { k.peer.ExecPeer? && k.peer.phase.Busy? }

  predicate JobOK(cfg: Config, c: nat, rc: Remote, kc: Conn, re: Remote, ke: Conn)
    requires kc.job.Some? && kc.peer.ClientPeer?
  {
    var j := kc.job.value;
    && ke.peer.ExecPeer? && Registered(cfg, ke)
    && rc.paired == Some(j.exec)
    && j.idx < |re.chan.log| && re.chan.log[j.idx] == Task(0, 0, kc.peer.details)
    && (j.stop.None? <==> re.paired == Some(c))
    && Segment(j, ke.up)
    && (j.stop.None? ==>
          && j.idx == |re.chan.log| - 1
          && j.start <= Handled(ke)
          && (ke.read <= j.idx ==> |ke.up| == j.start)
          && (forall a :: j.start <= a < Handled(ke) ==> !IsTerminal(ke.up[a].msg)))
    && (j.stop.Some? ==> j.stop.value <= Handled(ke) && (Working(ke) ==> j.idx < |re.chan.log| - 1))
    && Relayed(j, rc, ke)
  }

  // ---------- the whole ----------

  predicate Sizes(y: Sys) { |y.conns| == |y.sv.remotes| <= U32 }

  predicate LocalAt(y: Sys, i: nat)
    requires Sizes(y) && i < |y.conns|
  {
    LocalOK(y.sv.cfg, y.sv.remotes[i], y.conns[i])
  }

  predicate Locals(y: Sys)
    requires Sizes(y)
  {
    forall i :: 0 <= i < |y.conns| ==> LocalAt(y, i)
  }

  predicate WaitingOK(y: Sys, e: nat)
    requires Sizes(y)
  {
    && e < |y.conns| && y.conns[e].peer.ExecPeer? && Registered(y.sv.cfg, y.conns[e])
    && y.sv.remotes[e].paired.None? && y.conns[e].read == |y.sv.remotes[e].chan.log|
    && (y.sv.remotes[e].connType == Dead ==> y.conns[e].done > y.conns[e].fwd)
  }

  predicate IdleAt(y: Sys, e: nat)
    requires Sizes(y) && e < |y.conns|
  {
    y.sv.remotes[e].connType == Exec && y.sv.remotes[e].paired.None? ==> e in y.sv.execQueue
  }

  predicate Execs(y: Sys)
    requires Sizes(y)
  {
    var q := y.sv.execQueue;
    && (forall a :: 0 <= a < |q| ==> WaitingOK(y, q[a]))
    && (forall a, b :: 0 <= a < b < |q| ==> q[a] != q[b])
    && (forall e :: 0 <= e < |y.conns| ==> IdleAt(y, e))
  }

  predicate QueuedOK(y: Sys, t: Ticket)
    requires Sizes(y)
  {
    && t.client < |y.conns| && y.conns[t.client].peer.ClientPeer?
    && y.conns[t.client].peer.details == t.details
    && Registered(y.sv.cfg, y.conns[t.client]) && y.conns[t.client].job.None?
  }

  predicate QueuedAt(y: Sys, c: nat)
    requires Sizes(y) && c < |y.conns|
  {
    y.conns[c].peer.ClientPeer? && Registered(y.sv.cfg, y.conns[c]) && y.conns[c].job.None? ==>
      Ticket(c, y.conns[c].peer.details) in y.sv.taskQueue
  }

  predicate Tasks(y: Sys)
    requires Sizes(y)
  {
    && (forall t :: t in y.sv.taskQueue ==> QueuedOK(y, t))
    && (forall c :: 0 <= c < |y.conns| ==> QueuedAt(y, c))
  }

  predicate JobAt(y: Sys, c: nat)
    requires Sizes(y) && c < |y.conns|
  {
    y.conns[c].job.Some? ==>
      && y.conns[c].peer.ClientPeer?
      && y.conns[c].job.value.exec < |y.conns|
      && var e := y.conns[c].job.value.exec;
         JobOK(y.sv.cfg, c, y.sv.remotes[c], y.conns[c], y.sv.remotes[e], y.conns[e])
  }

  predicate Jobs(y: Sys)
    requires Sizes(y)
  {
    forall c :: 0 <= c < |y.conns| ==> JobAt(y, c)
  }

  predicate PairAt(y: Sys, e: nat)
    requires Sizes(y) && e < |y.conns|
  {
    y.conns[e].peer.ExecPeer? && y.sv.remotes[e].paired.Some? ==>
      var c := y.sv.remotes[e].paired.value;
      && c < |y.conns| && y.conns[c].job.Some?
      && y.conns[c].job.value.exec == e && y.conns[c].job.value.stop.None?
  }

  predicate Pairs(y: Sys)
    requires Sizes(y)
  {
    forall e :: 0 <= e < |y.conns| ==> PairAt(y, e)
  }

  /** No two clients' tasks are the same entry of the same executor's log. */
  predicate DistinctAt(y: Sys, c: nat, d: nat)
    requires c < |y.conns| && d < |y.conns|
  {
    (y.conns[c].job.Some? && y.conns[d].job.Some? && y.conns[c].job.value.exec == y.conns[d].job.value.exec)
    ==> y.conns[c].job.value.idx != y.conns[d].job.value.idx
  }

  predicate Distinct(y: Sys) {
    forall c, d :: 0 <= c < d < |y.conns| ==> DistinctAt(y, c, d)
  }

  predicate Inv(y: Sys) {
    Sizes(y) && Locals(y) && Execs(y) && Tasks(y) && Jobs(y) && Pairs(y) && Distinct(y)
  }

  /** Everything but the jobs. */
  predicate Rest(y: Sys) {
    Sizes(y) && Locals(y) && Execs(y) && Tasks(y) && Pairs(y) && Distinct(y)
  }

  /** Connection `j` looks the same to both queues and to the pairings. */
  predicate Still(y: Sys, z: Sys, j: nat)
    requires Sizes(y) && Sizes(z) && j < |y.conns| <= |z.conns|
  {
    var k, k', r, r' := y.conns[j], z.conns[j], y.sv.remotes[j], z.sv.remotes[j];
    && SamePeer(k.peer, k'.peer) && SameJob(k.job, k'.job)
    && (Registered(y.sv.cfg, k) <==> Registered(z.sv.cfg, k'))
    && r'.paired == r.paired
    && (r.paired.None? && k.peer.ExecPeer? ==> r'.chan.log == r.chan.log && k'.read >= k.read)
    && (r'.connType == Exec ==> r.connType == Exec)
    && (r'.connType == Dead ==>
          r.connType == Dead || k'.done > k'.fwd || k.peer.ClientPeer? || !Registered(y.sv.cfg, k))
    && (k.done > k.fwd ==> k'.done > k'.fwd)
  }

  predicate SamePeer(p: Peer, q: Peer) {
    if p.ExecPeer? then q.ExecPeer? && p.code == q.code && p.user == q.user
    else q.ClientPeer? && p.code == q.code && p.user == q.user && p.details == q.details
  }

  predicate SameJob(j: Option<Job>, j': Option<Job>) {
    if j.None? then j'.None?
    else j'.Some? && j'.value.exec == j.value.exec && j'.value.idx == j.value.idx && j'.value.stop == j.value.stop
  }

  /** A step that touches neither queue and leaves every connection still, bar what `LocalAt` covers. */
  lemma StillKeepsRest(y: Sys, z: Sys)
    requires Rest(y) && Sizes(z) && |z.conns| == |y.conns| && Locals(z)
    requires z.sv.execQueue == y.sv.execQueue && z.sv.taskQueue == y.sv.taskQueue && z.sv.cfg == y.sv.cfg
    requires forall j :: 0 <= j < |y.conns| ==> Still(y, z, j)
    ensures Rest(z)
  {
    StillKeepsQueues(y, z);
    forall e | 0 <= e < |z.conns| ensures PairAt(z, e) {
      assert PairAt(y, e) && Still(y, z, e);
      if z.sv.remotes[e].paired.Some? && z.conns[e].peer.ExecPeer? {
        assert Still(y, z, z.sv.remotes[e].paired.value);
      }
    }
    forall c, d | 0 <= c < d < |z.conns| ensures DistinctAt(z, c, d) {
      assert DistinctAt(y, c, d) && Still(y, z, c) && Still(y, z, d);
    }
  }

  lemma StillKeepsQueues(y: Sys, z: Sys)
    requires Sizes(y) && Execs(y) && Tasks(y) && Sizes(z) && |z.conns| == |y.conns| && Locals(z)
    requires z.sv.execQueue == y.sv.execQueue && z.sv.taskQueue == y.sv.taskQueue && z.sv.cfg == y.sv.cfg
    requires forall j :: 0 <= j < |y.conns| ==> Still(y, z, j)
    ensures Execs(z) && Tasks(z)
  {
    var q := y.sv.execQueue;
    forall a | 0 <= a < |q| ensures WaitingOK(z, q[a]) {
      assert WaitingOK(y, q[a]) && Still(y, z, q[a]);
      assert LocalAt(z, q[a]);
    }
    forall e | 0 <= e < |z.conns| ensures IdleAt(z, e) {
      assert IdleAt(y, e) && Still(y, z, e);
    }
    forall t | t in z.sv.taskQueue ensures QueuedOK(z, t) {
      assert QueuedOK(y, t) && Still(y, z, t.client);
    }
    forall d | 0 <= d < |z.conns| ensures QueuedAt(z, d) {
      assert Still(y, z, d) && QueuedAt(y, d);
    }
  }

  /** A job is fine as long as its client and its executor are untouched. */
  lemma JobElsewhere(y: Sys, z: Sys, c: nat)
    requires Sizes(y) && Sizes(z) && c < |y.conns| == |z.conns| && JobAt(y, c) && z.sv.cfg == y.sv.cfg
    requires z.conns[c] == y.conns[c] && z.sv.remotes[c] == y.sv.remotes[c]
    requires y.conns[c].job.Some? ==>
      var e := y.conns[c].job.value.exec; z.conns[e] == y.conns[e] && z.sv.remotes[e] == y.sv.remotes[e]
    ensures JobAt(z, c)
  {
  }

  /** To establish a job in a changed state, establish it for the two connections concerned. */
  lemma JobFrom(z: Sys, c: nat, rc: Remote, kc: Conn, re: Remote, ke: Conn)
    requires Sizes(z) && c < |z.conns| && z.sv.remotes[c] == rc && z.conns[c] == kc
    requires kc.job.Some? && kc.peer.ClientPeer? && kc.job.value.exec < |z.conns|
    requires z.sv.remotes[kc.job.value.exec] == re && z.conns[kc.job.value.exec] == ke
    requires JobOK(z.sv.cfg, c, rc, kc, re, ke)
    ensures JobAt(z, c)
  {
  }

  /** The invariant does not look at counters, clocks or priorities. */
  lemma InvFrame(y: Sys, z: Sys)
    requires Inv(y)
    requires z.conns == y.conns && z.sv.remotes == y.sv.remotes && z.sv.cfg == y.sv.cfg
    requires z.sv.taskQueue == y.sv.taskQueue && z.sv.execQueue == y.sv.execQueue
    ensures Inv(z)
  {
    forall i | 0 <= i < |z.conns| ensures LocalAt(z, i) && JobAt(z, i) && Still(y, z, i) {
      assert LocalAt(y, i) && JobAt(y, i);
    }
    StillKeepsRest(y, z);
  }

  lemma InitialInv(y: Sys)
    requires Initial(y)
    ensures Inv(y)
  {
  }
}
