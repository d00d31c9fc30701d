/**
  Exactly how each event of the server ends: normally, in an error that ends the server, in a decrement of a zero
  counter, or in a failed assertion. Each ending is decided by what can be read off the state before the event.
 */
module Verdicts {
  import opened Collections
  import opened Messages
  import opened Scheduler
  import opened Composition
  import opened Invariant
  import opened ServerSteps
  import opened Runs
  import opened Accounts
  import opened Guarantees
  import opened Matching

  /** The receiver of the messages to remote `e` is gone. */
  predicate Shut(rs: seq<Remote>, e: nat) { e < |rs| && !rs[e].chan.open }

  /** One of the first `n` waiting executors is out of reach. */
  predicate SomeShut(rs: seq<Remote>, q: seq<nat>, n: nat) {
    exists a :: 0 <= a < |q| && a < n && Shut(rs, q[a])
  }

  predicate SameFlags(a: seq<Remote>, b: seq<Remote>) {
    |a| == |b| && forall i :: 0 <= i < |a| ==> a[i].chan.open == b[i].chan.open
  }

  predicate Ranged(s: State) {
    forall a :: 0 <= a < |s.execQueue| ==> s.execQueue[a] < |s.remotes|
  }

  lemma ShutFrame(a: seq<Remote>, b: seq<Remote>, q: seq<nat>, n: nat)
    requires SameFlags(a, b)
    ensures SomeShut(a, q, n) <==> SomeShut(b, q, n)
  {
    forall k | 0 <= k < |q| ensures Shut(a, q[k]) <==> Shut(b, q[k]) {
    }
  }

  /** Looking at the first `k` and then at the next `n`. */
  lemma ShutSplit(rs: seq<Remote>, q: seq<nat>, k: nat, n: nat)
    requires k <= |q|
    ensures SomeShut(rs, q, k + n) <==> SomeShut(rs, q, k) || SomeShut(rs, q[k..], n)
  {
    if SomeShut(rs, q, k + n) {
      var a :| 0 <= a < |q| && a < k + n && Shut(rs, q[a]);
      assert a >= k ==> q[k..][a - k] == q[a];
    }
    if SomeShut(rs, q[k..], n) {
      var a :| 0 <= a < |q[k..]| && a < n && Shut(rs, q[k..][a]);
      assert q[k + a] == q[k..][a];
    }
  }

  lemma ShutFirst(rs: seq<Remote>, q: seq<nat>)
    requires q != []
    ensures SomeShut(rs, q, 1) <==> Shut(rs, q[0])
  {
  }

  // ---------- the release loop ----------

  /** The release ends in an error if one of the executors it gets to is out of reach; it gets to one more than the
      count allows. If it can reach that many, it decrements zero. */
  function ReleaseVerdict(rs: seq<Remote>, q: seq<nat>, running: nat): Verdict {
    if SomeShut(rs, q, running + 1) then SendError else if running < |q| then Underflow else Ok
  }

  lemma {:induction false} ReleaseEnds(s: State)
    requires Ranged(s)
    ensures Release(s).verdict == ReleaseVerdict(s.remotes, s.execQueue, s.running)
    decreases |s.execQueue|
  {
    var rs, q := s.remotes, s.execQueue;
    if q == [] {
    } else {
      ShutFirst(rs, q);
      ShutSplit(rs, q, 1, s.running);
      if ReleaseOne(s).verdict == Ok {
        var s' := ReleaseOne(s).state;
        assert SameFlags(rs, s'.remotes);
        ShutFrame(rs, s'.remotes, q[1..], s.running);
        ReleaseEnds(s');
      }
    }
  }

  function Waiting(q: seq<nat>): set<nat> { set a | 0 <= a < |q| :: q[a] }

  lemma {:induction false} WaitingCount(q: seq<nat>)
    requires forall a, b :: 0 <= a < b < |q| ==> q[a] != q[b]
    ensures |Waiting(q)| == |q|
  {
    if q == [] {
    } else {
      var n := |q| - 1;
      WaitingCount(q[..n]);
      assert Waiting(q) == Waiting(q[..n]) + {q[n]};
      assert q[n] !in Waiting(q[..n]);
    }
  }

  predicate AllLive(s: State) {
    forall a :: 0 <= a < |s.execQueue| ==> s.execQueue[a] in LiveExecs(s)
  }

  lemma LiveSuffice(s: State)
    requires QueueProper(s) && AllLive(s)
    ensures |s.execQueue| <= |LiveExecs(s)|
  {
    WaitingCount(s.execQueue);
    SubsetSize(Waiting(s.execQueue), LiveExecs(s));
  }

  /** A release goes through and keeps the executor count right exactly if every waiting executor is live and can be
      reached. */
  lemma ReleaseCountExact(s: State)
    requires QueueProper(s) && s.running == |LiveExecs(s)|
    ensures Release(s).verdict == Ok && Release(s).state.running == |LiveExecs(Release(s).state)|
       <==> AllLive(s) && !SomeShut(s.remotes, s.execQueue, |s.execQueue|)
  {
    ReleaseEnds(s);
    NoneDead(s, 0);
    if AllLive(s) {
      LiveSuffice(s);
    }
    if Release(s).verdict == Ok {
      ReleaseDrift(s);
    }
  }

  // ---------- the matching loop ----------

  lemma {:induction false} AssignEnds(y: Sys, picks: seq<Ticket>)
    requires Inv(y) && ValidPicks(y.sv, picks)
    ensures Assign(y.sv, picks).verdict
         == if SomeShut(y.sv.remotes, y.sv.execQueue, |y.sv.taskQueue|) then SendError else Ok
    decreases |picks|
  {
    if picks == [] {
    } else {
      var q := y.sv.execQueue;
      MatchFacts(y, picks[0]);
      ShutFirst(y.sv.remotes, q);
      ShutSplit(y.sv.remotes, q, 1, |y.sv.taskQueue| - 1);
      if AssignOne(y.sv, picks[0]).verdict == Ok {
        var z := AssignOneSys(y, picks[0]);
        MatchKeeps(y, picks[0]);
        MatchShrinks(y.sv, picks[0]);
        ShutFrame(y.sv.remotes, z.sv.remotes, q[1..], |z.sv.taskQueue|);
        AssignEnds(z, picks[1..]);
      }
    }
  }

  lemma MatchShrinks(s: State, t: Ticket)
    requires t in s.taskQueue && s.execQueue != [] && AssignOne(s, t).verdict == Ok
    ensures var s' := AssignOne(s, t).state;
      && SameFlags(s.remotes, s'.remotes) && |s'.taskQueue| == |s.taskQueue| - 1 && s'.execQueue == s.execQueue[1..]
      && s'.running == s.running && s'.lastSubmit == s.lastSubmit && s'.cfg == s.cfg
  {
    assert AssignOne(s, t).state.taskQueue.Keys == s.taskQueue.Keys - {t};
  }

  lemma {:induction false} AssignFrame(s: State, picks: seq<Ticket>)
    requires ValidPicks(s, picks) && Assign(s, picks).verdict == Ok
    ensures var s' := Assign(s, picks).state;
      SameFlags(s.remotes, s'.remotes) && s'.running == s.running && s'.lastSubmit == s.lastSubmit && s'.cfg == s.cfg
    decreases |picks|
  {
    if picks == [] {
    } else {
      MatchShrinks(s, picks[0]);
      AssignFrame(AssignOne(s, picks[0]).state, picks[1..]);
    }
  }

  // ---------- serving both queues ----------

  /**
    How serving the queues ends. There are `tasks` tasks, `running` executors are counted, `due` says whether idle
    executors are to be released. The server sends something to the first `tasks` waiting executors, and if a
    release is due to up to `running` + 1 more: to be out of reach among these is to end the server, to be more is
    to decrement zero.
   */
  function ServeVerdict(rs: seq<Remote>, q: seq<nat>, tasks: nat, running: nat, due: bool): Verdict {
    var reach := tasks + if due then running + 1 else 0;
    if SomeShut(rs, q, reach) then SendError else if due && reach <= |q| then Underflow else Ok
  }

  /** Matching went well; what the release comes to. */
  lemma ReleaseAfter(y: Sys, picks: seq<Ticket>)
    requires Inv(y) && ValidPicks(y.sv, picks) && Assign(y.sv, picks).verdict == Ok
    ensures Release(Assign(y.sv, picks).state).verdict
         == ServeVerdict(y.sv.remotes, y.sv.execQueue, |y.sv.taskQueue|, y.sv.running, true)
  {
    var s, s' := y.sv, Assign(y.sv, picks).state;
    AssignEnds(y, picks);
    AssignKeeps(y, picks);
    AssignFrame(s, picks);
    AssignConserves(s, picks);
    InvProper(AssignSys(y, picks));
    ReleaseEnds(s');
    ShutFrame(s.remotes, s'.remotes, s'.execQueue, s.running + 1);
    Remaining(s.remotes, s.execQueue, |picks|, |s.taskQueue|, s.running);
  }

  lemma CheckEnds(y: Sys, now: Nanos, picks: seq<Ticket>)
    requires Inv(y) && ValidPicks(y.sv, picks)
    ensures CheckQueues(y.sv, now, picks).verdict
         == ServeVerdict(y.sv.remotes, y.sv.execQueue, |y.sv.taskQueue|, y.sv.running, ReleaseDue(y.sv, now))
  {
    AssignEnds(y, picks);
    if Assign(y.sv, picks).verdict == Ok {
      AssignFrame(y.sv, picks);
      ReleaseAfter(y, picks);
    } else {
      Hit(y.sv.remotes, y.sv.execQueue, |y.sv.taskQueue|, y.sv.running + 1);
    }
  }

  lemma UpdateEnds(y: Sys, now: Nanos, picks: seq<Ticket>)
    requires Inv(y) && ValidPicks(StartExecs(y.sv), picks)
    ensures Update(y.sv, now, picks).verdict
         == ServeVerdict(y.sv.remotes, y.sv.execQueue, |y.sv.taskQueue|, y.sv.running, ReleaseDue(y.sv, now))
  {
    StartFrame(y.sv);
    InvFrame(y, y.(sv := StartExecs(y.sv)));
    CheckEnds(y.(sv := StartExecs(y.sv)), now, picks);
  }

  lemma Hit(rs: seq<Remote>, q: seq<nat>, tasks: nat, more: nat)
    requires SomeShut(rs, q, tasks)
    ensures SomeShut(rs, q, tasks + more)
  {
    var a :| 0 <= a < |q| && a < tasks && Shut(rs, q[a]);
    assert a < tasks + more;
  }

  /** After `k` matches none of which failed, with one of the queues empty, releasing decides. */
  lemma Remaining(rs: seq<Remote>, q: seq<nat>, k: nat, tasks: nat, running: nat)
    requires k <= |q| && k <= tasks && (k == tasks || k == |q|) && !SomeShut(rs, q, tasks)
    ensures ReleaseVerdict(rs, q[k..], running) == ServeVerdict(rs, q, tasks, running, true)
  {
    if k == tasks {
      ShutSplit(rs, q, tasks, running + 1);
    }
  }

  // ---------- one message ----------

  /** The queues, the count and the delay as they stand when a message has been registered and the queues are
      served. */
  function QueueThen(s: State, i: nat, m: Message): seq<nat> {
    if Ready(m) then s.execQueue + [i] else s.execQueue
  }

  function TasksThen(s: State, m: Message): nat { |s.taskQueue| + if m.Task? then 1 else 0 }

  function RunningThen(s: State, m: Message): nat { s.running + if m.YourObedientServant? then 1 else 0 }

  predicate DueThen(s: State, m: Message, clock: Clock) {
    if m.Task? then Elapsed(clock.check, clock.stamp) > s.cfg.releaseDelay else ReleaseDue(s, clock.check)
  }

  /** Only an executor's drop can fail: if its client is out of reach, and else if no executor is counted. */
  function DropVerdict(s: State, i: nat): Verdict
    requires i < |s.remotes|
  {
    var r := s.remotes[i];
    if r.connType != Exec then Ok
    else if r.paired.Some? && Shut(s.remotes, r.paired.value) then SendError
    else if s.running == 0 then Underflow
    else Ok
  }

  function EventVerdict(s: State, i: nat, m: Message, clock: Clock): Verdict
    requires i < |s.remotes|
  {
    if m.Dropped? then DropVerdict(s, i)
    else if LeadsToUpdate(m) then
      ServeVerdict(s.remotes, QueueThen(s, i, m), TasksThen(s, m), RunningThen(s, m), DueThen(s, m, clock))
    else Ok
  }

  lemma TaskThen(y: Sys, i: nat, m: Message, now: Nanos)
    requires Arrives(y, i, m) && m.Task?
    ensures |Register(y.sv, i, m, now).state.taskQueue| == |y.sv.taskQueue| + 1
  {
    var t := Ticket(i, m.details);
    assert LocalAt(y, i);
    NextShape(y.sv.cfg, y.sv.remotes[i], y.conns[i], m);
    assert t !in y.sv.taskQueue by {
      assert !QueuedOK(y, t);
    }
    assert Register(y.sv, i, m, now).state.taskQueue.Keys == y.sv.taskQueue.Keys + {t};
  }

  /** How the queues, the count and the channels stand when a message has been registered. */
  predicate Stands(s: State, i: nat, m: Message, now: Nanos, s': State) {
    && SameFlags(s.remotes, s'.remotes) && s'.execQueue == QueueThen(s, i, m) && |s'.taskQueue| == TasksThen(s, m)
    && s'.running == RunningThen(s, m) && s'.cfg == s.cfg
    && s'.lastSubmit == if m.Task? then Some(now) else s.lastSubmit
  }

  lemma RegisterThen(y: Sys, i: nat, m: Message, now: Nanos)
    requires Arrives(y, i, m) && LeadsToUpdate(m)
    ensures Stands(y.sv, i, m, now, Register(y.sv, i, m, now).state)
  {
    if m.Task? {
      TaskThen(y, i, m, now);
    } else if IsTerminal(m) {
      var c := ResultFacts(y, i, m);
      EndServer(y.sv, i, c, m, now);
      EndTimes(y.sv, i, m, now);
    }
  }

  lemma EndTimes(s: State, i: nat, m: Message, now: Nanos)
    requires i < |s.remotes| && IsTerminal(m)
    ensures Register(s, i, m, now).state.lastSubmit == s.lastSubmit
  {
  }

  lemma DropEnds(y: Sys, i: nat, now: Nanos)
    requires Arrives(y, i, Dropped)
    ensures Register(y.sv, i, Dropped, now).verdict == DropVerdict(y.sv, i)
  {
    if y.sv.remotes[i].connType == Exec && y.sv.remotes[i].paired.Some? {
      var c := DropFacts(y, i);
    }
  }

  lemma ServeEnds(y: Sys, i: nat, m: Message, clock: Clock, picks: seq<Ticket>)
    requires Arrives(y, i, m) && LeadsToUpdate(m) && Register(y.sv, i, m, clock.stamp).verdict == Ok
    requires ValidPicks(StartExecs(Register(y.sv, i, m, clock.stamp).state), picks)
    ensures Update(Register(y.sv, i, m, clock.stamp).state, clock.check, picks).verdict
         == EventVerdict(y.sv, i, m, clock)
  {
    var z := RegisterSys(y, i, m, clock.stamp);
    RegisterThen(y, i, m, clock.stamp);
    RegisterKeeps(y, i, m, clock.stamp);
    UpdateEnds(z, clock.check, picks);
    StandsServe(y.sv, i, m, clock, z.sv);
  }

  lemma StandsServe(s: State, i: nat, m: Message, clock: Clock, s': State)
    requires i < |s.remotes| && LeadsToUpdate(m) && Stands(s, i, m, clock.stamp, s')
    ensures ServeVerdict(s'.remotes, s'.execQueue, |s'.taskQueue|, s'.running, ReleaseDue(s', clock.check))
         == EventVerdict(s, i, m, clock)
  {
    var due := ReleaseDue(s', clock.check);
    SameServe(s.remotes, s'.remotes, s'.execQueue, |s'.taskQueue|, s'.running, due);
  }

  lemma SameServe(a: seq<Remote>, b: seq<Remote>, q: seq<nat>, tasks: nat, running: nat, due: bool)
    requires SameFlags(a, b)
    ensures ServeVerdict(a, q, tasks, running, due) == ServeVerdict(b, q, tasks, running, due)
  {
    ShutFrame(a, b, q, tasks + if due then running + 1 else 0);
  }

  lemma MessageEnds(y: Sys, i: nat, m: Message, clock: Clock, picks: seq<Ticket>)
    requires Arrives(y, i, m) && PicksFor(y.sv, i, m, clock, picks)
    ensures HandleMsg(y.sv, i, m, clock, picks).verdict == EventVerdict(y.sv, i, m, clock)
  {
    RegisterSafe(y, i, m, clock.stamp);
    if m.Dropped? {
      DropEnds(y, i, clock.stamp);
    } else if LeadsToUpdate(m) {
      ServeEnds(y, i, m, clock, picks);
    }
  }

  /**
    Exactly how the next message ends, in every reachable state and however ties are broken. It ends the server
    exactly if it is the drop of an executor whose client is out of reach, or makes the server send to a waiting
    executor out of reach; it underflows exactly if an executor drops or is released that is not counted. No
    assertion fails.
   */
  lemma MessageVerdict(y: Sys, steps: seq<Step>, i: nat, m: Message, clock: Clock, picks: seq<Ticket>)
    requires Initial(y) && Run(y, steps)
    requires var z := After(y, steps);
      && i < |z.conns| == |z.sv.remotes| && Next(z.sv.cfg, z.conns[i]) == Some(m)
      && PicksFor(z.sv, i, m, clock, picks)
    ensures var s := After(y, steps).sv; HandleMsg(s, i, m, clock, picks).verdict == EventVerdict(s, i, m, clock)
  {
    Reached(y, steps);
    MessageEnds(After(y, steps), i, m, clock, picks);
  }

  /** The same for the watchdog. */
  lemma WatchdogVerdict(y: Sys, steps: seq<Step>, now: Nanos, picks: seq<Ticket>)
    requires Initial(y) && Run(y, steps) && ValidPicks(StartExecs(After(y, steps).sv), picks)
    ensures var s := After(y, steps).sv;
      Update(s, now, picks).verdict
      == ServeVerdict(s.remotes, s.execQueue, |s.taskQueue|, s.running, ReleaseDue(s, now))
  {
    Reached(y, steps);
    UpdateEnds(After(y, steps), now, picks);
  }

  // ---------- messages no program of the system would send ----------

  /**
    The messages that trip an assertion or an `unimplemented`, whatever sends them: the two that are never for the
    server; a task with an output position outside its arguments; a result from a connection that is not paired; a
    hello from the client whose own task is the next to be handed out; a task from a connection that is paired
    already or is the next waiting executor, when one waits.
   */
  predicate Trips(s: State, i: nat, m: Message, picks: seq<Ticket>)
    requires i < |s.remotes|
  {
    || m.CancelTask? || m.PissOff? || (m.Task? && !OutputArgsInRange(m.details))
    || (IsResult(m) && s.remotes[i].paired.None?)
    || (m.YourObedientServant? && picks != [] && picks[0].client == i)
    || (m.Task? && s.execQueue != [] && (s.execQueue[0] == i || s.remotes[i].paired.Some?))
  }

  lemma PairedInTable(y: Sys, i: nat)
    requires Inv(y) && i < |y.conns| && y.sv.remotes[i].paired.Some?
    ensures y.sv.remotes[i].paired.value < |y.sv.remotes|
    ensures forall t :: t in y.sv.taskQueue ==> t.client != i
  {
    assert LocalAt(y, i) && PairAt(y, i) && JobAt(y, i);
    forall t | t in y.sv.taskQueue ensures t.client != i {
      assert QueuedOK(y, t) && LocalAt(y, t.client);
    }
  }

  /** With at most one task or at most one executor, serving fails an assertion exactly if the one match does. */
  lemma ServeAsserts(s: State, now: Nanos, picks: seq<Ticket>)
    requires Ranged(s) && ValidPicks(StartExecs(s), picks) && (|s.taskQueue| <= 1 || |s.execQueue| <= 1)
    ensures picks != [] ==> BothWaiting(s) && Top(s.taskQueue, picks[0])
    ensures picks == [] ==> !BothWaiting(s)
    ensures Update(s, now, picks).verdict == AssertFailed
       <==> picks != [] && AssignOne(s, picks[0]).verdict == AssertFailed
  {
    StartFrame(s);
    var s0 := StartExecs(s);
    if picks == [] {
      ReleaseEnds(s0);
    } else {
      var o := AssignOne(s0, picks[0]);
      assert o.verdict == AssignOne(s, picks[0]).verdict;
      if o.verdict == Ok {
        MatchShrinks(s0, picks[0]);
        assert picks[1..] == [];
        AssignSingle(s0, picks);
        ReleaseEnds(o.state);
      }
    }
  }

  /** No client of a queued task is paired, and no waiting executor is. */
  predicate Unpaired(s: State) {
    && Ranged(s) && (forall a :: 0 <= a < |s.execQueue| ==> s.remotes[s.execQueue[a]].paired.None?)
    && (forall t :: t in s.taskQueue ==> t.client < |s.remotes| && s.remotes[t.client].paired.None?)
  }

  lemma InvUnpaired(y: Sys)
    requires Inv(y)
    ensures Unpaired(y.sv)
  {
    InvProper(y);
    forall a | 0 <= a < |y.sv.execQueue| ensures y.sv.remotes[y.sv.execQueue[a]].paired.None? {
      assert WaitingOK(y, y.sv.execQueue[a]);
    }
    forall t | t in y.sv.taskQueue ensures t.client < |y.sv.remotes| && y.sv.remotes[t.client].paired.None? {
      assert QueuedOK(y, t) && LocalAt(y, t.client);
    }
  }

  lemma StrayHello(s: State, i: nat, m: Message, clock: Clock, picks: seq<Ticket>)
    requires Unpaired(s) && WorkConserving(s) && i < |s.remotes| && m.YourObedientServant?
    requires PicksFor(s, i, m, clock, picks)
    ensures HandleMsg(s, i, m, clock, picks).verdict == AssertFailed <==> Trips(s, i, m, picks)
  {
    var s1 := Register(s, i, m, clock.stamp).state;
    assert s1.execQueue == s.execQueue + [i] && s1.taskQueue == s.taskQueue;
    assert s.execQueue != [] ==> |s.taskQueue| == 0;
    ServeAsserts(s1, clock.check, picks);
  }

  lemma StrayTask(s: State, i: nat, m: Message, clock: Clock, picks: seq<Ticket>)
    requires Unpaired(s) && WorkConserving(s) && i < |s.remotes| && m.Task?
    requires PicksFor(s, i, m, clock, picks)
    ensures HandleMsg(s, i, m, clock, picks).verdict == AssertFailed <==> Trips(s, i, m, picks)
  {
    if OutputArgsInRange(m.details) {
      var s1 := Register(s, i, m, clock.stamp).state;
      if s.execQueue != [] {
        assert s1.taskQueue == map[Ticket(i, m.details) := Priority(s.cfg, m.details)];
      }
      ServeAsserts(s1, clock.check, picks);
    }
  }

  lemma StrayEnd(s: State, i: nat, m: Message, clock: Clock, picks: seq<Ticket>)
    requires Unpaired(s) && WorkConserving(s) && i < |s.remotes| && IsTerminal(m) && PicksFor(s, i, m, clock, picks)
    requires s.remotes[i].paired.Some? ==>
      s.remotes[i].paired.value < |s.remotes| && forall t :: t in s.taskQueue ==> t.client != i
    ensures HandleMsg(s, i, m, clock, picks).verdict == AssertFailed <==> Trips(s, i, m, picks)
  {
    if s.remotes[i].paired.Some? {
      StrayEndShape(s, i, m, clock.stamp);
      StrayEndServe(s, Register(s, i, m, clock.stamp).state, i, clock.check, picks);
    }
  }

  /** What serving finds after executor `i` was freed by a completion. */
  lemma StrayEndServe(s: State, s': State, i: nat, now: Nanos, picks: seq<Ticket>)
    requires Unpaired(s) && WorkConserving(s) && i < |s.remotes| == |s'.remotes|
    requires s'.execQueue == s.execQueue + [i] && s'.taskQueue == s.taskQueue && s'.remotes[i].paired.None?
    requires forall k :: 0 <= k < |s.remotes| && k != i ==> s'.remotes[k].paired == s.remotes[k].paired
    requires forall t :: t in s.taskQueue ==> t.client != i
    requires ValidPicks(StartExecs(s'), picks)
    ensures Update(s', now, picks).verdict != AssertFailed
  {
    assert s.execQueue != [] ==> |s.taskQueue| == 0;
    ServeAsserts(s', now, picks);
  }

  lemma StrayEndShape(s: State, i: nat, m: Message, now: Nanos)
    requires i < |s.remotes| && IsTerminal(m) && s.remotes[i].paired.Some? && s.remotes[i].paired.value < |s.remotes|
    ensures var o := Register(s, i, m, now);
      && o.verdict == Ok && |o.state.remotes| == |s.remotes|
      && o.state.execQueue == s.execQueue + [i] && o.state.taskQueue == s.taskQueue && o.state.remotes[i].paired.None?
      && forall k :: 0 <= k < |s.remotes| && k != i ==> o.state.remotes[k].paired == s.remotes[k].paired
  {
    var o := RelayTerminal(s, i, m, now);
    assert o.verdict == Ok && forall k :: 0 <= k < |s.remotes| ==> o.state.remotes[k].paired == s.remotes[k].paired;
  }

  /**
    Exactly which messages fail an assertion, in every reachable state, for every connection and every message at
    all, also one its program would not send.
   */
  lemma AnyMessage(y: Sys, steps: seq<Step>, i: nat, m: Message, clock: Clock, picks: seq<Ticket>)
    requires Initial(y) && Run(y, steps)
    requires i < |After(y, steps).sv.remotes| && PicksFor(After(y, steps).sv, i, m, clock, picks)
    ensures var s := After(y, steps).sv;
      HandleMsg(s, i, m, clock, picks).verdict == AssertFailed <==> Trips(s, i, m, picks)
  {
    Reached(y, steps);
    InitialInv(y);
    RunConserves(y, steps);
    var z := After(y, steps);
    InvUnpaired(z);
    if z.sv.remotes[i].paired.Some? {
      PairedInTable(z, i);
    }
    if m.YourObedientServant? {
      StrayHello(z.sv, i, m, clock, picks);
    } else if m.Task? {
      StrayTask(z.sv, i, m, clock, picks);
    } else if IsTerminal(m) {
      StrayEnd(z.sv, i, m, clock, picks);
    }
  }
}
