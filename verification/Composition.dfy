/**
  The composed system: the server, and for every connection its handler task and the process at the
  other end, which runs either the executor's or the client's program.

  Each direction of a connection is a log together with how far the parties have got in it. Upwards,
  `up` is everything the peer wrote, `fwd` how much of it the handler read and put on the server's
  inbound channel, `done` how much of that the server handled. Downwards, the remote's channel log is
  everything the server sent, `taken` how much the handler wrote to the socket, `read` how much of
  that the peer read. A message is in flight between any two of these marks.
 */
module Composition {
  import opened Messages
  import opened Scheduler

  datatype ExecPhase = Booting | Idle | Busy(job: nat, work: TaskDetails) | Gone
  datatype ClientPhase = Fresh | Waiting | Left

  datatype Peer =
    | ExecPeer(code: nat, user: nat, phase: ExecPhase)
    | ClientPeer(code: nat, user: nat, details: TaskDetails, at: ClientPhase)

  /** A message the peer wrote. For an executor's result, `tag` is the position, in the log of messages
      sent to that executor, of the task being worked on. */
  datatype Up = Up(msg: Message, tag: Option<nat>)

  /** History kept for a client whose task was assigned: the executor, the position of the task in that
      executor's log, the stretch `start..stop` of the executor's writings that belongs to the task
      (no `stop` while it is unfinished), whether the client was told that its executor dropped, and
      whether the executor was already marked dead when it was given the task. */
  datatype Job = Job(exec: nat, start: nat, idx: nat, stop: Option<nat>, failed: bool, lost: bool)

  datatype Conn = Conn(
    peer: Peer,
    up: seq<Up>, fwd: nat, eof: bool, done: nat,
    alive: bool, taken: nat, read: nat,
    job: Option<Job>)

  datatype Sys = Sys(sv: State, conns: seq<Conn>)

  datatype Step =
    | Accept(peer: Peer)
    | PeerStart(i: nat)
    | PeerRead(i: nat)
    | ExecEmit(i: nat, msg: Message)
    | PeerDie(i: nat)
    | HandlerForward(i: nat)
    | HandlerWrite(i: nat)
    | HandlerEof(i: nat)
    | HandlerFail(i: nat)
    | HandlerClose(i: nat)
    | Deliver(i: nat, clock: Clock, picks: seq<Ticket>)
    | Watchdog(now: Nanos, picks: seq<Ticket>)

  // ---------- connection handler ----------

  /** The handler checks the codes of the two opening messages and passes everything else through. */
  function Screen(cfg: Config, m: Message): Message {
    match m
    case YourObedientServant(code, user) =>
      if code - code % 2 != cfg.accessCode || user != cfg.userKey then Dropped else m
    case Task(code, user, _) =>
      if code != cfg.accessCode || user != cfg.userKey then Dropped else m
    case _ => m
  }

  /** The next message of this connection on the server's inbound channel, if there is one. */
  function Next(cfg: Config, k: Conn): Option<Message> {
    if k.done < k.fwd <= |k.up| then Some(Screen(cfg, k.up[k.done].msg))
    else if k.eof && k.done == k.fwd then Some(Dropped)
    else None
  }

  // ---------- peers ----------

  function NewConn(p: Peer): Conn {
    Conn(p, [], 0, false, 0, true, 0, 0, None)
  }

  predicate StartingPeer(p: Peer) {
    if p.ExecPeer? then p.phase == Booting else p.at == Fresh && OutputArgsInRange(p.details)
  }

  function Opening(p: Peer): Message {
    if p.ExecPeer? then YourObedientServant(p.code, p.user) else Task(p.code, p.user, p.details)
  }

  function Started(k: Conn): Conn {
    k.(up := [Up(Opening(k.peer), None)],
       peer := if k.peer.ExecPeer? then k.peer.(phase := Idle) else k.peer.(at := Waiting))
  }

  predicate Listening(p: Peer) {
    if p.ExecPeer? then p.phase == Idle else p.at == Waiting
  }

  /** The messages a listening peer can handle. Any other makes it panic, and so does output for a file the client
      does not have. */
  predicate Understands(p: Peer, m: Message) {
    if p.ExecPeer? then m.Task? || m.PissOff? else IsResult(m) && IndexInRange(p.details, m)
  }

  /** What reading `m`, the message at position `n` of its log, does to a listening peer. */
  function AfterReading(p: Peer, n: nat, m: Message): Peer
    requires Understands(p, m)
  {
    if p.ExecPeer? then
      if m.Task? then p.(phase := Busy(n, m.details)) else p.(phase := Gone)
    else if m.TaskFailed? || (m.TaskDone? && m.exitCode.Some?) then p.(at := Left)
    else p
  }

  predicate LastIs(up: seq<Up>, tag: nat) {
    up != [] && up[|up| - 1].tag == Some(tag)
  }

  /** What the executor's program may write next: a failure only instead of any output, a completion only
      under the id computed from the task as it was received, file output only for the task's own files. */
  predicate MayEmit(k: Conn, m: Message) {
    && k.peer.ExecPeer? && k.peer.phase.Busy?
    && IsResult(m)
    && (m.TaskFailed? ==> !LastIs(k.up, k.peer.phase.job))
    && (m.TaskDone? ==> m.targetId == TargetId(k.peer.phase.work))
    && IndexInRange(k.peer.phase.work, m)
  }

  function Emitted(k: Conn, m: Message): Conn
    requires MayEmit(k, m)
  {
    k.(up := k.up + [Up(m, Some(k.peer.phase.job))],
       peer := if IsTerminal(m) then k.peer.(phase := Idle) else k.peer)
  }

  function Died(p: Peer): Peer {
    if p.ExecPeer? then p.(phase := Gone) else p.(at := Left)
  }

  // ---------- server steps ----------

  function SetConn(y: Sys, i: nat, k: Conn): Sys
    requires i < |y.conns|
  {
    y.(conns := y.conns[i := k])
  }

  function SetJob(conns: seq<Conn>, c: nat, j: Option<Job>): seq<Conn> {
    if c < |conns| then conns[c := conns[c].(job := j)] else conns
  }

  /** The client whose task executor `i` has. */
  function Partner(y: Sys, i: nat): Option<nat>
    requires i < |y.sv.remotes|
  {
    var p := y.sv.remotes[i].paired;
    if p.Some? && p.value < |y.conns| && y.conns[p.value].job.Some? then p else None
  }

  /** Job history: a completion closes the stretch, a drop in the middle marks the client as told. */
  function Annotate(y: Sys, i: nat, m: Message): seq<Conn>
    requires i < |y.conns| && i < |y.sv.remotes|
  {
    var ks := y.conns[i := y.conns[i].(done := y.conns[i].done + 1)];
    var p := Partner(y, i);
    if p.None? then ks
    else
      var j := y.conns[p.value].job.value;
      if IsTerminal(m) then SetJob(ks, p.value, Some(j.(stop := Some(y.conns[i].done + 1))))
      else if m.Dropped? && y.sv.remotes[i].connType == Exec then SetJob(ks, p.value, Some(j.(failed := true)))
      else ks
  }

  function RegisterSys(y: Sys, i: nat, m: Message, now: Nanos): Sys
    requires i < |y.conns| && i < |y.sv.remotes|
  {
    Sys(Register(y.sv, i, m, now).state, Annotate(y, i, m))
  }

  function AssignOneSys(y: Sys, t: Ticket): Sys
    requires t in y.sv.taskQueue && y.sv.execQueue != []
  {
    var e := y.sv.execQueue[0];
    Sys(AssignOne(y.sv, t).state,
        if e < |y.conns| && e < |y.sv.remotes| then
          SetJob(y.conns, t.client,
                 Some(Job(e, |y.conns[e].up|, |y.sv.remotes[e].chan.log|, None, false,
                          y.sv.remotes[e].connType != Exec)))
        else y.conns)
  }

  function AssignSys(y: Sys, picks: seq<Ticket>): Sys
    requires ValidPicks(y.sv, picks)
    decreases |picks|
  {
    if picks == [] then y
    else if AssignOne(y.sv, picks[0]).verdict == Ok then AssignSys(AssignOneSys(y, picks[0]), picks[1..])
    else AssignOneSys(y, picks[0])
  }

  function UpdateSys(y: Sys, now: Nanos, picks: seq<Ticket>): Sys
    requires ValidPicks(StartExecs(y.sv), picks)
  {
    var z := AssignSys(y.(sv := StartExecs(y.sv)), picks);
    z.(sv := Update(y.sv, now, picks).state)
  }

  function HandleSys(y: Sys, i: nat, m: Message, clock: Clock, picks: seq<Ticket>): Sys
    requires i < |y.conns| && i < |y.sv.remotes| && PicksFor(y.sv, i, m, clock, picks)
  {
    var z := RegisterSys(y, i, m, clock.stamp);
    if Register(y.sv, i, m, clock.stamp).verdict == Ok && LeadsToUpdate(m)
    then UpdateSys(z, clock.check, picks) else z
  }

  // ---------- steps ----------

  predicate Enabled(y: Sys, st: Step)
  {
    && |y.conns| == |y.sv.remotes|
    && match st
       case Accept(p) => StartingPeer(p) && |y.conns| < 0x1_0000_0000
       case PeerStart(i) => i < |y.conns| && StartingPeer(y.conns[i].peer)
       case PeerRead(i) =>
         && i < |y.conns| && Listening(y.conns[i].peer)
         && y.conns[i].read < y.conns[i].taken <= |y.sv.remotes[i].chan.log|
         && Understands(y.conns[i].peer, y.sv.remotes[i].chan.log[y.conns[i].read])
       case ExecEmit(i, m) => i < |y.conns| && MayEmit(y.conns[i], m)
       case PeerDie(i) => i < |y.conns|
       case HandlerForward(i) => i < |y.conns| && y.conns[i].alive && y.conns[i].fwd < |y.conns[i].up|
       case HandlerWrite(i) => i < |y.conns| && y.conns[i].alive && y.conns[i].taken < |y.sv.remotes[i].chan.log|
       case HandlerEof(i) => i < |y.conns| && y.conns[i].alive
       case HandlerFail(i) => i < |y.conns| && y.conns[i].alive && y.conns[i].taken < |y.sv.remotes[i].chan.log|
       case HandlerClose(i) => i < |y.conns| && !y.conns[i].alive
       case Deliver(i, clock, picks) =>
         && i < |y.conns|
         && var m := Next(y.sv.cfg, y.conns[i]);
            m.Some? && PicksFor(y.sv, i, m.value, clock, picks)
            && HandleMsg(y.sv, i, m.value, clock, picks).verdict == Ok
       case Watchdog(now, picks) =>
         ValidPicks(StartExecs(y.sv), picks) && Update(y.sv, now, picks).verdict == Ok
  }

  function Apply(y: Sys, st: Step): Sys
    requires Enabled(y, st)
  {
    match st
    case Accept(p) => Sys(AddRemote(y.sv), y.conns + [NewConn(p)])
    case PeerStart(i) => SetConn(y, i, Started(y.conns[i]))
    case PeerRead(i) =>
      var k := y.conns[i];
      SetConn(y, i, k.(read := k.read + 1, peer := AfterReading(k.peer, k.read, y.sv.remotes[i].chan.log[k.read])))
    case ExecEmit(i, m) => SetConn(y, i, Emitted(y.conns[i], m))
    case PeerDie(i) => SetConn(y, i, y.conns[i].(peer := Died(y.conns[i].peer)))
    case HandlerForward(i) => SetConn(y, i, y.conns[i].(fwd := y.conns[i].fwd + 1))
    case HandlerWrite(i) => SetConn(y, i, y.conns[i].(taken := y.conns[i].taken + 1))
    case HandlerEof(i) => SetConn(y, i, y.conns[i].(eof := true, alive := false))
    case HandlerFail(i) => SetConn(y, i, y.conns[i].(alive := false))
    case HandlerClose(i) =>
      var r := y.sv.remotes[i];
      y.(sv := SetRemote(y.sv, i, r.(chan := r.chan.(open := false))))
    case Deliver(i, clock, picks) =>
      var z := HandleSys(y, i, Next(y.sv.cfg, y.conns[i]).value, clock, picks);
      z.(sv := z.sv.(lastActivity := clock.stamp))
    case Watchdog(now, picks) => UpdateSys(y, now, picks)
  }

  /** A run is a list of steps, each possible when its turn comes. A server event that ends in an error
      or a panic is the end of the server, so no run goes past one. */
  ghost predicate Run(y: Sys, steps: seq<Step>)
    decreases |steps|
  {
    steps == [] || (Enabled(y, steps[0]) && Run(Apply(y, steps[0]), steps[1..]))
  }

  ghost function After(y: Sys, steps: seq<Step>): Sys
    requires Run(y, steps)
    decreases |steps|
  {
    if steps == [] then y else After(Apply(y, steps[0]), steps[1..])
  }

  ghost predicate Initial(y: Sys) {
    y.sv.cfg.accessCode % 2 == 0 && y == Sys(InitialState(y.sv.cfg, y.sv.lastActivity), [])
  }
}
