/**
  The server's state and, as functions on it, what each of its operations does: the
  specification that the class in ServerState.dfy is proved against and that the composed
  system in Composition.dfy takes its server steps from.
 */
module Scheduler {
  import opened Messages

  datatype ConnType = Pending | Client | Exec | Dead

  /** The server's sending end of a channel: whether the receiver still exists, and every message
      accepted so far, oldest first. How many of them were taken out again is the receiver's business. */
  datatype Channel = Channel(open: bool, log: seq<Message>)

  datatype Remote = Remote(connType: ConnType, chan: Channel, paired: Option<nat>)

  datatype Ticket = Ticket(client: nat, details: TaskDetails)

  datatype Config = Config(
    initialCount: nat, maxCount: nat, keepPending: nat,
    releaseDelay: nat, idleShutdownAfter: nat,
    bothQueues: bool,
    accessCode: nat, userKey: nat,
    prior: map<string, Nanos>)

  datatype State = State(
    cfg: Config,
    remotes: seq<Remote>,
    taskQueue: map<Ticket, Nanos>,
    execQueue: seq<nat>,
    submitCount: nat,
    finishCount: nat,
    pending: nat,
    secondPending: nat,
    running: nat,
    lastSubmit: Option<Nanos>,
    lastActivity: Nanos,
    making: map<string, (Nanos, Nanos)>)

  /** How an operation ends: normally; with an error that `run` passes up, ending the server; in one
      of the code's own assertions; or in a decrement of a zero counter. */
  datatype Verdict = Ok | SendError | AssertFailed | Underflow

  datatype Outcome = Outcome(state: State, verdict: Verdict)

  /** The two clock readings an event makes: the one it records and the later one it compares. */
  datatype Clock = Clock(stamp: Nanos, check: Nanos)

  const U32: nat := 0x1_0000_0000

  const DROP_NOTICE: Message := TaskFailed("exec dropped connection")

  function InitialState(cfg: Config, now: Nanos): State {
    State(cfg, [], map[], [], 0, 0, 0, 0, 0, None, now, map[])
  }

  function SetRemote(s: State, i: nat, r: Remote): State
    requires i < |s.remotes|
  {
    s.(remotes := s.remotes[i := r])
  }

  function Put(r: Remote, m: Message): Remote {
    r.(chan := r.chan.(log := r.chan.log + [m]))
  }

  function AddRemote(s: State): State {
    s.(remotes := s.remotes + [Remote(Pending, Channel(true, []), None)])
  }

  // ---------- relaying ----------

  /** Hand `m` to remote `c` if it is a live client; a closed channel marks it dead instead. */
  function Forward(s: State, c: nat, m: Message): State
    requires c < |s.remotes|
  {
    var r := s.remotes[c];
    if r.connType != Client then s
    else if r.chan.open then SetRemote(s, c, Put(r, m))
    else SetRemote(s, c, r.(connType := Dead))
  }

  function SendToPaired(s: State, i: nat, m: Message): Outcome
    requires i < |s.remotes|
  {
    match s.remotes[i].paired
    case None => Outcome(s, AssertFailed)
    case Some(other) =>
      if other < |s.remotes| then Outcome(Forward(s, other, m), Ok) else Outcome(s, AssertFailed)
  }

  // ---------- drops ----------

  /** The notice a dropped executor's client is sent, whatever the client's own state. */
  function NotifyClient(s: State, i: nat): Outcome
    requires i < |s.remotes|
  {
    var r := s.remotes[i];
    if r.connType != Exec || r.paired.None? then Outcome(s, Ok)
    else if r.paired.value >= |s.remotes| then Outcome(s, AssertFailed)
    else
      var c := s.remotes[r.paired.value];
      if c.chan.open then Outcome(SetRemote(s, r.paired.value, Put(c, DROP_NOTICE)), Ok)
      else Outcome(s, SendError)
  }

  function MarkDead(s: State, i: nat): State
    requires i < |s.remotes|
  {
    SetRemote(s, i, s.remotes[i].(connType := Dead))
  }

  function HandleDropped(s: State, i: nat): Outcome
    requires i < |s.remotes|
  {
    var o := NotifyClient(s, i);
    if o.verdict != Ok then o
    else if s.remotes[i].connType != Exec then Outcome(MarkDead(o.state, i), Ok)
    else if o.state.running == 0 then Outcome(o.state, Underflow)
    else Outcome(MarkDead(o.state.(running := o.state.running - 1), i), Ok)
  }

  // ---------- registration ----------

  function Priority(cfg: Config, d: TaskDetails): Nanos {
    (if TargetId(d) in cfg.prior then cfg.prior[TargetId(d)] else SECOND)
    + (if d.priorityTask then 300 * SECOND else 0)
  }

  function EnqueueTask(s: State, i: nat, d: TaskDetails, now: Nanos): State
    requires i < |s.remotes|
  {
    SetRemote(s, i, s.remotes[i].(connType := Client))
    .(taskQueue := s.taskQueue[Ticket(i, d) := Priority(s.cfg, d)], lastSubmit := Some(now))
  }

  function MakeReady(s: State, i: nat): State
    requires i < |s.remotes|
  {
    SetRemote(s, i, s.remotes[i].(paired := None)).(execQueue := s.execQueue + [i])
  }

  function EnrolExec(s: State, i: nat, second: bool): State
    requires i < |s.remotes|
  {
    MakeReady(
      SetRemote(s, i, s.remotes[i].(connType := Exec)).(
        running := s.running + 1,
        pending := if !second && s.pending > 0 then s.pending - 1 else s.pending,
        secondPending := if second && s.secondPending > 0 then s.secondPending - 1 else s.secondPending),
      i)
  }

  // ---------- starting executors ----------

  predicate LaunchGuard(s: State, alt: bool, keep: nat) {
    && s.running + s.pending + s.secondPending < |s.taskQueue|
    && s.running + s.pending + s.secondPending < s.cfg.maxCount
    && (if alt then s.secondPending else s.pending) < keep
  }

  function LaunchOne(s: State, alt: bool): State {
    if alt then s.(secondPending := s.secondPending + 1) else s.(pending := s.pending + 1)
  }

  function Launch(s: State, alt: bool, keep: nat): State
    decreases if LaunchGuard(s, alt, keep) then keep - (if alt then s.secondPending else s.pending) else 0
  {
    if LaunchGuard(s, alt, keep) then Launch(LaunchOne(s, alt), alt, keep) else s
  }

  function Max(a: int, b: int): int { if a < b then b else a }
  function Min(a: int, b: int): int { if a < b then a else b }

  /** How many unconnected executors the server wants to have outstanding. */
  function KeepPending(s: State): nat {
    Max(s.cfg.keepPending, Max(s.cfg.initialCount, s.running) - s.running)
  }

  function StartExecs(s: State): State {
    if |s.taskQueue| == 0 then s
    else if s.cfg.bothQueues then
      var half := (KeepPending(s) + 1) / 2;
      Launch(Launch(s, false, half), true, half)
    else Launch(s, false, KeepPending(s))
  }

  // ---------- matching tasks and executors ----------

  predicate Top(q: map<Ticket, Nanos>, t: Ticket) {
    t in q && forall u :: u in q ==> q[u] <= q[t]
  }

  /** Pop ticket `t` and the longest-waiting executor, pair them, send the task. */
  function AssignOne(s: State, t: Ticket): Outcome
    requires t in s.taskQueue && s.execQueue != []
  {
    var c, e := t.client, s.execQueue[0];
    var s0 := s.(taskQueue := s.taskQueue - {t}, execQueue := s.execQueue[1..]);
    if c == e || c >= |s.remotes| || e >= |s.remotes| then Outcome(s0, AssertFailed)
    else if s.remotes[c].paired.Some? then Outcome(s0, AssertFailed)
    else
      var s1 := SetRemote(s0, c, s0.remotes[c].(paired := Some(e % U32)));
      if s.remotes[e].paired.Some? then Outcome(s1, AssertFailed)
      else
        var s2 := SetRemote(s1, e, s1.remotes[e].(paired := Some(c % U32)));
        if s.remotes[e].chan.open
        then Outcome(SetRemote(s2, e, Put(s2.remotes[e], Task(0, 0, t.details))), Ok)
        else Outcome(s2, SendError)
  }

  predicate BothWaiting(s: State) {
    s.taskQueue != map[] && s.execQueue != []
  }

  /** `picks` are the tickets the matching loop pops, in order, starting from `s`. Ties between equal
      priorities may be broken either way, which is why they are a parameter. */
  predicate ValidPicks(s: State, picks: seq<Ticket>)
    decreases |picks|
  {
    if picks == [] then !BothWaiting(s)
    else
      && BothWaiting(s) && Top(s.taskQueue, picks[0])
      && var o := AssignOne(s, picks[0]);
         if o.verdict == Ok then ValidPicks(o.state, picks[1..]) else |picks| == 1
  }

  function Assign(s: State, picks: seq<Ticket>): Outcome
    requires ValidPicks(s, picks)
    decreases |picks|
  {
    if picks == [] then Outcome(s, Ok)
    else
      var o := AssignOne(s, picks[0]);
      if o.verdict == Ok then Assign(o.state, picks[1..]) else o
  }

  function Elapsed(now: Nanos, since: Nanos): nat {
    (if now < since then 0 else now - since) / SECOND
  }

  predicate ReleaseDue(s: State, now: Nanos) {
    s.lastSubmit.Some? && Elapsed(now, s.lastSubmit.value) > s.cfg.releaseDelay
  }

  /** Pop the longest-waiting executor and tell it to go away. */
  function ReleaseOne(s: State): Outcome
    requires s.execQueue != []
  {
    var e := s.execQueue[0];
    var s0 := s.(execQueue := s.execQueue[1..]);
    if e >= |s.remotes| then Outcome(s0, AssertFailed)
    else
      var s1 := MarkDead(s0, e);
      if !s.remotes[e].chan.open then Outcome(s1, SendError)
      else
        var s2 := SetRemote(s1, e, Put(s1.remotes[e], PissOff));
        if s2.running == 0 then Outcome(s2, Underflow) else Outcome(s2.(running := s2.running - 1), Ok)
  }

  function Release(s: State): Outcome
    decreases |s.execQueue|
  {
    if s.execQueue == [] then Outcome(s, Ok)
    else
      var o := ReleaseOne(s);
      if o.verdict == Ok then Release(o.state) else o
  }

  function CheckQueues(s: State, now: Nanos, picks: seq<Ticket>): Outcome
    requires ValidPicks(s, picks)
  {
    var o := Assign(s, picks);
    if o.verdict == Ok && ReleaseDue(o.state, now) then Release(o.state) else o
  }

  /** What the watchdog does, and what every registration or completion ends with. */
  function Update(s: State, now: Nanos, picks: seq<Ticket>): Outcome
    requires ValidPicks(StartExecs(s), picks)
  {
    CheckQueues(StartExecs(s), now, picks)
  }

  // ---------- one message ----------

  predicate LeadsToUpdate(m: Message) {
    m.YourObedientServant? || m.Task? || m.TaskDone? || m.TaskFailed?
  }

  /** Record a success and pass the message on: what a completion does before freeing the executor. */
  function RelayTerminal(s: State, i: nat, m: Message, now: Nanos): Outcome
    requires i < |s.remotes| && IsTerminal(m)
  {
    var s0 :=
      if m.TaskDone? && m.exitCode == Some(0) then s.(making := s.making[m.targetId := (m.runTime, now)]) else s;
    SendToPaired(s0, i, m)
  }

  /** The part of message handling that precedes `Update`. */
  function Register(s: State, i: nat, m: Message, now: Nanos): Outcome
    requires i < |s.remotes|
  {
    match m
    case YourObedientServant(code, _) => Outcome(EnrolExec(s, i, code % 2 != 0), Ok)
    case Task(_, _, d) =>
      var s0 := s.(submitCount := s.submitCount + 1);
      if OutputArgsInRange(d) then Outcome(EnqueueTask(s0, i, d, now), Ok) else Outcome(s0, AssertFailed)
    case TaskOutput(_, _) => SendToPaired(s, i, m)
    case TaskFailed(_) => Complete(RelayTerminal(s, i, m, now), i)
    case TaskDone(_, _, _, _) => Complete(RelayTerminal(s, i, m, now), i)
    case CancelTask => Outcome(s, AssertFailed)
    case PissOff => Outcome(s, AssertFailed)
    case Dropped => HandleDropped(s, i)
  }

  function Complete(o: Outcome, i: nat): Outcome
    requires i < |o.state.remotes|
  {
    if o.verdict != Ok then o
    else Outcome(MakeReady(o.state.(finishCount := o.state.finishCount + 1), i), Ok)
  }

  predicate PicksFor(s: State, i: nat, m: Message, clock: Clock, picks: seq<Ticket>)
    requires i < |s.remotes|
  {
    var o := Register(s, i, m, clock.stamp);
    if o.verdict == Ok && LeadsToUpdate(m) then ValidPicks(StartExecs(o.state), picks) else picks == []
  }

  function HandleMsg(s: State, i: nat, m: Message, clock: Clock, picks: seq<Ticket>): Outcome
    requires i < |s.remotes| && PicksFor(s, i, m, clock, picks)
  {
    var o := Register(s, i, m, clock.stamp);
    if o.verdict == Ok && LeadsToUpdate(m) then Update(o.state, clock.check, picks) else o
  }

  predicate OkToShutdown(s: State, now: Nanos) {
    && s.taskQueue == map[]
    && s.running == 0
    && Elapsed(now, s.lastActivity) > s.cfg.idleShutdownAfter
  }
}
