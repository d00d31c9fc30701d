/**
  Concrete runs on which a guarantee fails without its assumption. Two begin with the drop of an idle executor:
  `handle_dropped` leaves it in the queue of waiting executors, and while its channel has not been closed yet a task
  sent to it goes nowhere. The third ends the server by the drop of a busy executor whose client has left.
 */
module Counterexamples {
  import opened Messages
  import opened Scheduler
  import opened Composition
  import opened ServerSteps
  import opened Accounts
  import opened Guarantees

  const CFG := Config(0, 0, 0, 30, 60, false, 2, 7, map[])
  const TASK := TaskDetails("/w", "/bin/cc", ["cc"], [], map[], false)
  const EXEC := ExecPeer(2, 7, Booting)
  const CLIENT := ClientPeer(2, 7, TASK, Fresh)
  const ZERO := Clock(0, 0)

  /** An executor registers, drops while idle, and then a client submits a task. */
  const SCRIPT: seq<Step> := [
    Accept(EXEC), PeerStart(0), HandlerForward(0), Deliver(0, ZERO, []),
    HandlerEof(0), Deliver(0, ZERO, []),
    Accept(CLIENT), PeerStart(1), HandlerForward(1), Deliver(1, ZERO, [Ticket(1, TASK)])]

  const HELLO := Up(YourObedientServant(2, 7), None)
  const SUBMIT := Up(Task(2, 7, TASK), None)

  function ExecConn(peer: Peer, up: seq<Up>, fwd: nat, eof: bool, done: nat): Conn {
    Conn(peer, up, fwd, eof, done, !eof, 0, 0, None)
  }

  function ClientConn(at: ClientPhase, up: seq<Up>, fwd: nat, done: nat, job: Option<Job>): Conn {
    Conn(CLIENT.(at := at), up, fwd, false, done, true, 0, 0, job)
  }

  function Server(remotes: seq<Remote>, execQueue: seq<nat>, submitted: nat, running: nat, last: Option<Nanos>): State {
    State(CFG, remotes, map[], execQueue, submitted, 0, 0, 0, running, last, 0, map[])
  }

  const OPEN := Channel(true, [])
  const NEWCOMER := Remote(Pending, OPEN, None)

  /** The states the script passes through. */
  function Path(): seq<Sys> {
    var idle := EXEC.(phase := Idle);
    var gone := Remote(Dead, OPEN, None);
    var exec := ExecConn(idle, [HELLO], 1, true, 2);
    [ Sys(Server([], [], 0, 0, None), []),
      Sys(Server([NEWCOMER], [], 0, 0, None), [ExecConn(EXEC, [], 0, false, 0)]),
      Sys(Server([NEWCOMER], [], 0, 0, None), [ExecConn(idle, [HELLO], 0, false, 0)]),
      Sys(Server([NEWCOMER], [], 0, 0, None), [ExecConn(idle, [HELLO], 1, false, 0)]),
      Sys(Server([Remote(Exec, OPEN, None)], [0], 0, 1, None), [ExecConn(idle, [HELLO], 1, false, 1)]),
      Sys(Server([Remote(Exec, OPEN, None)], [0], 0, 1, None), [ExecConn(idle, [HELLO], 1, true, 1)]),
      Sys(Server([gone], [0], 0, 0, None), [exec]),
      Sys(Server([gone, NEWCOMER], [0], 0, 0, None), [exec, ClientConn(Fresh, [], 0, 0, None)]),
      Sys(Server([gone, NEWCOMER], [0], 0, 0, None), [exec, ClientConn(Waiting, [SUBMIT], 0, 0, None)]),
      Sys(Server([gone, NEWCOMER], [0], 0, 0, None), [exec, ClientConn(Waiting, [SUBMIT], 1, 0, None)]),
      Sys(Server([Remote(Dead, Channel(true, [Task(0, 0, TASK)]), Some(1)), Remote(Client, OPEN, Some(0))],
                 [], 1, 0, Some(0)),
          [exec, ClientConn(Waiting, [SUBMIT], 1, 1, Some(Job(0, 1, 0, None, false, true)))]) ]
  }

  predicate Takes(y: Sys, st: Step, z: Sys) { Enabled(y, st) && Apply(y, st) == z }

  lemma {:induction false} PathIsRun(ys: seq<Sys>, steps: seq<Step>)
    requires |ys| == |steps| + 1 && forall k :: 0 <= k < |steps| ==> Takes(ys[k], steps[k], ys[k + 1])
    ensures Run(ys[0], steps) && After(ys[0], steps) == ys[|steps|]
    decreases |steps|
  {
    if steps == [] {
    } else {
      assert Takes(ys[0], steps[0], ys[1]);
      forall k | 0 <= k < |steps| - 1 ensures Takes(ys[1..][k], steps[1..][k], ys[1..][k + 1]) {
        assert Takes(ys[k + 1], steps[k + 1], ys[k + 2]);
      }
      PathIsRun(ys[1..], steps[1..]);
    }
  }

  lemma HandlesTo(y: Sys, i: nat, m: Message, now: Nanos, picks: seq<Ticket>, z1: Sys, z2: Sys)
    requires i < |y.conns| == |y.sv.remotes| && LeadsToUpdate(m)
    requires Register(y.sv, i, m, now).verdict == Ok && RegisterSys(y, i, m, now) == z1
    requires StartExecs(z1.sv) == z1.sv && ValidPicks(z1.sv, picks)
    requires Assign(z1.sv, picks) == Outcome(z2.sv, Ok) && AssignSys(z1, picks) == z2 && !ReleaseDue(z2.sv, now)
    ensures PicksFor(y.sv, i, m, Clock(now, now), picks)
    ensures HandleMsg(y.sv, i, m, Clock(now, now), picks) == Outcome(z2.sv, Ok)
    ensures HandleSys(y, i, m, Clock(now, now), picks) == z2
  {
    assert CheckQueues(z1.sv, now, picks) == Outcome(z2.sv, Ok);
    assert Update(z1.sv, now, picks) == Outcome(z2.sv, Ok);
    assert z1.(sv := StartExecs(z1.sv)) == z1;
  }

  /** A message that is registered, starts no executor, is followed by the matches `picks` and by no release. */
  lemma Delivers(y: Sys, i: nat, m: Message, now: Nanos, picks: seq<Ticket>, z1: Sys, z2: Sys)
    requires i < |y.conns| == |y.sv.remotes| && Next(y.sv.cfg, y.conns[i]) == Some(m) && LeadsToUpdate(m)
    requires Register(y.sv, i, m, now).verdict == Ok && RegisterSys(y, i, m, now) == z1
    requires StartExecs(z1.sv) == z1.sv && ValidPicks(z1.sv, picks)
    requires Assign(z1.sv, picks) == Outcome(z2.sv, Ok) && AssignSys(z1, picks) == z2
    requires !ReleaseDue(z2.sv, now) && z2.sv.lastActivity == now
    ensures Takes(y, Deliver(i, Clock(now, now), picks), z2)
  {
    HandlesTo(y, i, m, now, picks, z1, z2);
    assert z2.(sv := z2.sv.(lastActivity := now)) == z2;
  }

  /** The same without a match. */
  lemma DeliversOnly(y: Sys, i: nat, m: Message, now: Nanos, z: Sys)
    requires i < |y.conns| == |y.sv.remotes| && Next(y.sv.cfg, y.conns[i]) == Some(m) && LeadsToUpdate(m)
    requires Register(y.sv, i, m, now).verdict == Ok && RegisterSys(y, i, m, now) == z
    requires z.sv.taskQueue == map[] && !ReleaseDue(z.sv, now) && z.sv.lastActivity == now
    ensures Takes(y, Deliver(i, Clock(now, now), []), z)
  {
    assert |z.sv.taskQueue| == 0;
    Delivers(y, i, m, now, [], z, z);
  }

  lemma ScriptAccept()
    ensures Takes(Path()[0], SCRIPT[0], Path()[1])
  {
  }

  lemma ScriptStart()
    ensures forall k :: 0 <= k < 3 ==> Takes(Path()[k], SCRIPT[k], Path()[k + 1])
  {
    ScriptAccept();
    assert Takes(Path()[1], SCRIPT[1], Path()[2]);
    assert Takes(Path()[2], SCRIPT[2], Path()[3]);
  }

  lemma ScriptHello()
    ensures Takes(Path()[3], SCRIPT[3], Path()[4])
  {
    var y, z := Path()[3], Path()[4];
    assert RegisterSys(y, 0, HELLO.msg, 0) == z;
    DeliversOnly(y, 0, HELLO.msg, 0, z);
  }

  lemma ScriptDrop()
    ensures forall k :: 4 <= k < 6 ==> Takes(Path()[k], SCRIPT[k], Path()[k + 1])
  {
    assert Takes(Path()[4], SCRIPT[4], Path()[5]);
    assert Takes(Path()[5], SCRIPT[5], Path()[6]);
  }

  lemma ScriptMiddle()
    ensures forall k :: 6 <= k < 9 ==> Takes(Path()[k], SCRIPT[k], Path()[k + 1])
  {
    assert Takes(Path()[6], SCRIPT[6], Path()[7]);
    assert Takes(Path()[7], SCRIPT[7], Path()[8]);
    assert Takes(Path()[8], SCRIPT[8], Path()[9]);
  }

  const TICKET := Ticket(1, TASK)

  /** Between the registration of the client's task and its assignment. */
  function Submitted(): Sys {
    var z := Path()[9];
    Sys(Server([z.sv.remotes[0], Remote(Client, OPEN, None)], [0], 1, 0, Some(0)).(taskQueue := map[TICKET := SECOND]),
        [z.conns[0], ClientConn(Waiting, [SUBMIT], 1, 1, None)])
  }

  lemma ScriptSubmit()
    ensures Next(CFG, Path()[9].conns[1]) == Some(SUBMIT.msg)
    ensures Register(Path()[9].sv, 1, SUBMIT.msg, 0).verdict == Ok
    ensures RegisterSys(Path()[9], 1, SUBMIT.msg, 0) == Submitted()
    ensures StartExecs(Submitted().sv) == Submitted().sv
  {
  }

  lemma ScriptMatch()
    ensures ValidPicks(Submitted().sv, [TICKET]) && Assign(Submitted().sv, [TICKET]) == Outcome(Path()[10].sv, Ok)
    ensures AssignSys(Submitted(), [TICKET]) == Path()[10]
  {
    var s := Submitted().sv;
    MatchServer(s, TICKET);
    var s' := AssignOne(s, TICKET).state;
    assert s'.remotes[0] == Path()[10].sv.remotes[0] by { assert [] + [Task(0, 0, TASK)] == [Task(0, 0, TASK)]; }
    assert s'.remotes[1] == Path()[10].sv.remotes[1];
    assert s'.remotes == Path()[10].sv.remotes;
    assert s'.taskQueue == map[] && Top(s.taskQueue, TICKET);
    assert [TICKET][1..] == [];
  }

  lemma ScriptEnd()
    ensures Takes(Path()[9], SCRIPT[9], Path()[10])
  {
    ScriptSubmit();
    ScriptMatch();
    var y, z1, z2 := Path()[9], Submitted(), Path()[10];
    Delivers(y, 1, SUBMIT.msg, 0, [TICKET], z1, z2);
  }

  lemma ScriptIsRun()
    ensures forall k :: 0 <= k < 10 ==> Takes(Path()[k], SCRIPT[k], Path()[k + 1])
    ensures Initial(Path()[0]) && Run(Path()[0], SCRIPT) && After(Path()[0], SCRIPT) == Path()[10]
  {
    ScriptStart();
    ScriptHello();
    ScriptDrop();
    ScriptMiddle();
    ScriptEnd();
    PathIsRun(Path(), SCRIPT);
  }

  /** Safe shutdown fails without the assumption about idle drops: there is a run after which the server may stop
      while a client it accepted a task from has been sent nothing. */
  lemma IdleDropLosesTask()
    ensures exists y: Sys, steps: seq<Step>, now: Nanos, c: nat ::
      && Initial(y) && Run(y, steps) && !IdleDropFree(y, steps)
      && OkToShutdown(After(y, steps).sv, now) && Expectant(After(y, steps), c) && !Answered(After(y, steps), c)
  {
    ScriptIsRun();
    var y, steps := Path()[0], SCRIPT;
    var now := 61 * SECOND;
    assert OkToShutdown(After(y, steps).sv, now);
    if IdleDropFree(y, steps) {
      StillFree(Path(), steps, 5);
      assert false;
    }
    assert Expectant(After(y, steps), 1) && !Answered(After(y, steps), 1);
  }

  /** In an idle-drop-free run no step is an idle drop. */
  lemma {:induction false} StillFree(ys: seq<Sys>, steps: seq<Step>, k: nat)
    requires |ys| == |steps| + 1 && forall k :: 0 <= k < |steps| ==> Takes(ys[k], steps[k], ys[k + 1])
    requires k < |steps| && Run(ys[0], steps) && IdleDropFree(ys[0], steps)
    ensures !IdleDrop(ys[k], steps[k])
    decreases k
  {
    assert Takes(ys[0], steps[0], ys[1]);
    if k == 0 {
    } else {
      forall k | 0 <= k < |steps| - 1 ensures Takes(ys[1..][k], steps[1..][k], ys[1..][k + 1]) {
        assert Takes(ys[k + 1], steps[k + 1], ys[k + 2]);
      }
      StillFree(ys[1..], steps[1..], k - 1);
    }
  }

  // ---------- the executor count ----------

  /** After the script another executor registers and drops while idle. */
  const SEQUEL: seq<Step> := [
    Accept(EXEC), PeerStart(2), HandlerForward(2), Deliver(2, ZERO, []), HandlerEof(2), Deliver(2, ZERO, [])]

  function SequelState(last: Remote, execQueue: seq<nat>, running: nat, conn: Conn): Sys {
    var before := Path()[10];
    Sys(Server(before.sv.remotes + [last], execQueue, 1, running, Some(0)), before.conns + [conn])
  }

  function SequelPath(): seq<Sys> {
    var idle := EXEC.(phase := Idle);
    [ Path()[10],
      SequelState(NEWCOMER, [], 0, ExecConn(EXEC, [], 0, false, 0)),
      SequelState(NEWCOMER, [], 0, ExecConn(idle, [HELLO], 0, false, 0)),
      SequelState(NEWCOMER, [], 0, ExecConn(idle, [HELLO], 1, false, 0)),
      SequelState(Remote(Exec, OPEN, None), [2], 1, ExecConn(idle, [HELLO], 1, false, 1)),
      SequelState(Remote(Exec, OPEN, None), [2], 1, ExecConn(idle, [HELLO], 1, true, 1)),
      SequelState(Remote(Dead, OPEN, None), [2], 0, ExecConn(idle, [HELLO], 1, true, 2)) ]
  }

  lemma SequelStart()
    ensures forall k :: 0 <= k < 3 ==> Takes(SequelPath()[k], SEQUEL[k], SequelPath()[k + 1])
  {
    assert Takes(SequelPath()[0], SEQUEL[0], SequelPath()[1]);
    assert Takes(SequelPath()[1], SEQUEL[1], SequelPath()[2]);
    assert Takes(SequelPath()[2], SEQUEL[2], SequelPath()[3]);
  }

  lemma SequelHello()
    ensures Takes(SequelPath()[3], SEQUEL[3], SequelPath()[4])
  {
    var y, z := SequelPath()[3], SequelPath()[4];
    assert RegisterSys(y, 2, HELLO.msg, 0) == z;
    DeliversOnly(y, 2, HELLO.msg, 0, z);
  }

  lemma SequelDrop()
    ensures forall k :: 4 <= k < 6 ==> Takes(SequelPath()[k], SEQUEL[k], SequelPath()[k + 1])
  {
    assert Takes(SequelPath()[4], SEQUEL[4], SequelPath()[5]);
    assert Takes(SequelPath()[5], SEQUEL[5], SequelPath()[6]);
  }

  /** The executor count can underflow without the assumption about idle drops: there is a run after which the
      watchdog's release of idle executors decrements a zero counter. */
  lemma IdleDropUnderflows()
    ensures exists y: Sys, steps: seq<Step>, now: Nanos ::
      && Initial(y) && Run(y, steps) && ValidPicks(StartExecs(After(y, steps).sv), [])
      && Update(After(y, steps).sv, now, []).verdict == Underflow
  {
    ScriptIsRun();
    SequelStart();
    SequelHello();
    SequelDrop();
    var ys, steps := Path() + SequelPath()[1..], SCRIPT + SEQUEL;
    forall k | 0 <= k < |steps| ensures Takes(ys[k], steps[k], ys[k + 1]) {
      if k < 10 {
        assert Takes(Path()[k], SCRIPT[k], Path()[k + 1]);
      } else {
        assert Takes(SequelPath()[k - 10], SEQUEL[k - 10], SequelPath()[k - 9]);
      }
    }
    PathIsRun(ys, steps);
    var now := 31 * SECOND;
    var s := SequelPath()[6].sv;
    assert ReleaseDue(s, now) && StartExecs(s) == s && Update(s, now, []) == Release(s);
    assert After(ys[0], steps).sv == s;
  }

  // ---------- the drop of a busy executor ----------

  /** An executor registers, a client submits a task and leaves, and then the executor's connection ends. */
  const LEAVING: seq<Step> := [
    Accept(EXEC), PeerStart(0), HandlerForward(0), Deliver(0, ZERO, []),
    Accept(CLIENT), PeerStart(1), HandlerForward(1), Deliver(1, ZERO, [TICKET]),
    HandlerEof(1), HandlerClose(1), HandlerEof(0)]

  const LIVE := Remote(Exec, OPEN, None)
  const GIVEN := Remote(Exec, Channel(true, [Task(0, 0, TASK)]), Some(1))

  function LeavingSubmitted(): Sys {
    Sys(Server([LIVE, Remote(Client, OPEN, None)], [0], 1, 1, Some(0)).(taskQueue := map[TICKET := SECOND]),
        [ExecConn(EXEC.(phase := Idle), [HELLO], 1, false, 1), ClientConn(Waiting, [SUBMIT], 1, 1, None)])
  }

  function LeavingPath(): seq<Sys> {
    var exec := ExecConn(EXEC.(phase := Idle), [HELLO], 1, false, 1);
    var client := ClientConn(Waiting, [SUBMIT], 1, 1, Some(Job(0, 1, 0, None, false, false)));
    var left := client.(eof := true, alive := false);
    var closed := Remote(Client, Channel(false, []), Some(0));
    Path()[..5] +
    [ Sys(Server([LIVE, NEWCOMER], [0], 0, 1, None), [exec, ClientConn(Fresh, [], 0, 0, None)]),
      Sys(Server([LIVE, NEWCOMER], [0], 0, 1, None), [exec, ClientConn(Waiting, [SUBMIT], 0, 0, None)]),
      Sys(Server([LIVE, NEWCOMER], [0], 0, 1, None), [exec, ClientConn(Waiting, [SUBMIT], 1, 0, None)]),
      Sys(Server([GIVEN, Remote(Client, OPEN, Some(0))], [], 1, 1, Some(0)), [exec, client]),
      Sys(Server([GIVEN, Remote(Client, OPEN, Some(0))], [], 1, 1, Some(0)), [exec, left]),
      Sys(Server([GIVEN, closed], [], 1, 1, Some(0)), [exec, left]),
      Sys(Server([GIVEN, closed], [], 1, 1, Some(0)), [exec.(eof := true, alive := false), left]) ]
  }

  lemma LeavingMiddle()
    ensures forall k :: 4 <= k < 7 ==> Takes(LeavingPath()[k], LEAVING[k], LeavingPath()[k + 1])
  {
    assert Takes(LeavingPath()[4], LEAVING[4], LeavingPath()[5]);
    assert Takes(LeavingPath()[5], LEAVING[5], LeavingPath()[6]);
    assert Takes(LeavingPath()[6], LEAVING[6], LeavingPath()[7]);
  }

  lemma LeavingSubmit()
    ensures Next(CFG, LeavingPath()[7].conns[1]) == Some(SUBMIT.msg)
    ensures Register(LeavingPath()[7].sv, 1, SUBMIT.msg, 0).verdict == Ok
    ensures RegisterSys(LeavingPath()[7], 1, SUBMIT.msg, 0) == LeavingSubmitted()
    ensures StartExecs(LeavingSubmitted().sv) == LeavingSubmitted().sv
  {
  }

  lemma LeavingMatch()
    ensures ValidPicks(LeavingSubmitted().sv, [TICKET])
    ensures Assign(LeavingSubmitted().sv, [TICKET]) == Outcome(LeavingPath()[8].sv, Ok)
    ensures AssignSys(LeavingSubmitted(), [TICKET]) == LeavingPath()[8]
  {
    var s := LeavingSubmitted().sv;
    MatchServer(s, TICKET);
    var s' := AssignOne(s, TICKET).state;
    assert s'.remotes[0] == GIVEN by { assert [] + [Task(0, 0, TASK)] == [Task(0, 0, TASK)]; }
    assert s'.remotes[1] == LeavingPath()[8].sv.remotes[1];
    assert s'.remotes == LeavingPath()[8].sv.remotes;
    assert s'.taskQueue == map[] && Top(s.taskQueue, TICKET);
    assert [TICKET][1..] == [];
  }

  lemma LeavingGiven()
    ensures Takes(LeavingPath()[7], LEAVING[7], LeavingPath()[8])
  {
    LeavingSubmit();
    LeavingMatch();
    var y, z1, z2 := LeavingPath()[7], LeavingSubmitted(), LeavingPath()[8];
    Delivers(y, 1, SUBMIT.msg, 0, [TICKET], z1, z2);
  }

  lemma LeavingEnd()
    ensures forall k :: 8 <= k < 11 ==> Takes(LeavingPath()[k], LEAVING[k], LeavingPath()[k + 1])
  {
    assert Takes(LeavingPath()[8], LEAVING[8], LeavingPath()[9]);
    assert Takes(LeavingPath()[9], LEAVING[9], LeavingPath()[10]);
    assert Takes(LeavingPath()[10], LEAVING[10], LeavingPath()[11]);
  }

  lemma LeavingIsRun()
    ensures forall k :: 0 <= k < 11 ==> Takes(LeavingPath()[k], LEAVING[k], LeavingPath()[k + 1])
  {
    ScriptStart();
    ScriptHello();
    forall k | 0 <= k < 4 ensures Takes(LeavingPath()[k], LEAVING[k], LeavingPath()[k + 1]) {
      assert Takes(Path()[k], SCRIPT[k], Path()[k + 1]);
      assert LeavingPath()[k] == Path()[k] && LeavingPath()[k + 1] == Path()[k + 1] && LEAVING[k] == SCRIPT[k];
    }
    LeavingMiddle();
    LeavingGiven();
    LeavingEnd();
  }

  lemma {:induction false} FreePath(ys: seq<Sys>, steps: seq<Step>)
    requires |ys| == |steps| + 1 && Run(ys[0], steps)
    requires forall k :: 0 <= k < |steps| ==> Takes(ys[k], steps[k], ys[k + 1]) && !IdleDrop(ys[k], steps[k])
    ensures IdleDropFree(ys[0], steps)
    decreases |steps|
  {
    if steps == [] {
    } else {
      assert Takes(ys[0], steps[0], ys[1]) && !IdleDrop(ys[0], steps[0]);
      forall k | 0 <= k < |steps| - 1
        ensures Takes(ys[1..][k], steps[1..][k], ys[1..][k + 1]) && !IdleDrop(ys[1..][k], steps[1..][k])
      {
        assert Takes(ys[k + 1], steps[k + 1], ys[k + 2]) && !IdleDrop(ys[k + 1], steps[k + 1]);
      }
      FreePath(ys[1..], steps[1..]);
    }
  }

  lemma LeavingFree()
    ensures Run(LeavingPath()[0], LEAVING) && IdleDropFree(LeavingPath()[0], LEAVING)
    ensures After(LeavingPath()[0], LEAVING) == LeavingPath()[11]
  {
    var ys := LeavingPath();
    LeavingIsRun();
    PathIsRun(ys, LEAVING);
    assert !IdleDrop(ys[3], LEAVING[3]) && !IdleDrop(ys[7], LEAVING[7]);
    FreePath(ys, LEAVING);
  }

  /** The drop of a busy executor whose client left can end the server, although no idle executor ever dropped. */
  lemma BusyDropEndsServer()
    ensures exists y: Sys, steps: seq<Step>, i: nat, clock: Clock ::
      && Initial(y) && Run(y, steps) && IdleDropFree(y, steps)
      && i < |After(y, steps).conns| == |After(y, steps).sv.remotes|
      && Next(After(y, steps).sv.cfg, After(y, steps).conns[i]) == Some(Dropped)
      && HandleMsg(After(y, steps).sv, i, Dropped, clock, []).verdict == SendError
  {
    LeavingFree();
    var z := LeavingPath()[11];
    assert Next(z.sv.cfg, z.conns[0]) == Some(Dropped);
    assert HandleMsg(z.sv, 0, Dropped, ZERO, []).verdict == SendError;
  }

  // ---------- a message out of turn ----------

  /** A connection that opens with output instead of an opening message trips the server's assertion: the handler
      passes the message on as it is. */
  lemma StrayResultFails()
    ensures exists y: Sys, steps: seq<Step>, i: nat, m: Message, clock: Clock ::
      && Initial(y) && Run(y, steps) && i < |After(y, steps).sv.remotes|
      && Screen(After(y, steps).sv.cfg, m) == m && m.TaskOutput?
      && HandleMsg(After(y, steps).sv, i, m, clock, []).verdict == AssertFailed
  {
    var y, steps, m := Path()[0], SCRIPT[..1], TaskOutput(Stdout, []);
    ScriptAccept();
    PathIsRun(Path()[..2], steps);
    assert After(y, steps) == Path()[1];
    assert Screen(CFG, m) == m;
    assert HandleMsg(Path()[1].sv, 0, m, ZERO, []).verdict == AssertFailed;
  }

  /** A task one of whose output positions is not a position of an argument trips the server too: computing its id
      panics. */
  lemma StrayTaskFails()
    ensures exists y: Sys, steps: seq<Step>, i: nat, m: Message, clock: Clock ::
      && Initial(y) && Run(y, steps) && i < |After(y, steps).sv.remotes|
      && Screen(After(y, steps).sv.cfg, m) == m && m.Task? && PicksFor(After(y, steps).sv, i, m, clock, [])
      && HandleMsg(After(y, steps).sv, i, m, clock, []).verdict == AssertFailed
  {
    var y, steps, m := Path()[0], SCRIPT[..1], Task(2, 7, TASK.(args := [], outputArgs := [5]));
    ScriptAccept();
    PathIsRun(Path()[..2], steps);
    assert After(y, steps) == Path()[1];
    assert Screen(CFG, m) == m;
    assert m.details.outputArgs[0] >= |m.details.args|;
    assert HandleMsg(Path()[1].sv, 0, m, ZERO, []).verdict == AssertFailed;
  }
}
