/** How tasks and executors are brought together: work conservation, order of service, bounded waiting. */
module Matching {
  import opened Messages
  import opened Scheduler
  import opened Composition
  import opened Invariant
  import opened ServerSteps
  import opened Runs

  /** No executor waits while a task waits. */
  predicate WorkConserving(s: State) { !BothWaiting(s) }

  lemma {:induction false} AssignConserves(s: State, picks: seq<Ticket>)
    requires ValidPicks(s, picks) && Assign(s, picks).verdict == Ok
    ensures WorkConserving(Assign(s, picks).state)
    ensures |picks| <= |s.execQueue| && Assign(s, picks).state.execQueue == s.execQueue[|picks|..]
    ensures |picks| <= |s.taskQueue| && |Assign(s, picks).state.taskQueue| == |s.taskQueue| - |picks|
    decreases |picks|
  {
    if picks == [] {
    } else {
      var s1 := AssignOne(s, picks[0]).state;
      assert s1.taskQueue.Keys == s.taskQueue.Keys - {picks[0]};
      assert s1.execQueue == s.execQueue[1..];
      AssignConserves(s1, picks[1..]);
    }
  }

  lemma {:induction false} ReleaseEmpties(s: State)
    requires Release(s).verdict == Ok
    ensures Release(s).state.execQueue == [] && Release(s).state.taskQueue == s.taskQueue
    decreases |s.execQueue|
  {
    if s.execQueue == [] {
    } else {
      ReleaseEmpties(ReleaseOne(s).state);
    }
  }

  /** What `Update` leaves of the two queues, and that executors are dismissed only when no task is queued. */
  lemma UpdateQueues(s: State, now: Nanos, picks: seq<Ticket>)
    requires ValidPicks(StartExecs(s), picks) && Update(s, now, picks).verdict == Ok
    ensures var s' := Update(s, now, picks).state;
      && WorkConserving(s')
      && |picks| <= |s.execQueue| && (s'.execQueue == s.execQueue[|picks|..] || s'.execQueue == [])
      && |picks| <= |s.taskQueue| && |s'.taskQueue| == |s.taskQueue| - |picks|
      && (s'.taskQueue != map[] ==> s' == Assign(StartExecs(s), picks).state)
  {
    StartFrame(s);
    AssignConserves(StartExecs(s), picks);
    var s1 := Assign(StartExecs(s), picks).state;
    if ReleaseDue(s1, now) {
      ReleaseEmpties(s1);
    }
  }

  /** A message that makes an executor available. */
  predicate Ready(m: Message) { m.YourObedientServant? || IsTerminal(m) }

  lemma RegisterQueues(y: Sys, i: nat, m: Message, now: Nanos)
    requires Arrives(y, i, m) && Register(y.sv, i, m, now).verdict == Ok
    ensures var s' := Register(y.sv, i, m, now).state;
      && s'.execQueue == (if Ready(m) then y.sv.execQueue + [i] else y.sv.execQueue)
      && (if m.Task? then s'.taskQueue == y.sv.taskQueue[Ticket(i, m.details) := Priority(y.sv.cfg, m.details)]
          else s'.taskQueue == y.sv.taskQueue)
  {
    if IsTerminal(m) {
      var c := ResultFacts(y, i, m);
      EndServer(y.sv, i, c, m, now);
    } else if m.TaskOutput? {
      var c := ResultFacts(y, i, m);
      OutputShape(y, i, c, m, now);
    }
  }

  /** If at most one task or one executor joined a work-conserving state, at most one match is made. */
  lemma OneMatch(s: State, s1: State, i: nat, m: Message, now: Nanos, picks: seq<Ticket>)
    requires WorkConserving(s) && LeadsToUpdate(m)
    requires s1.execQueue == if Ready(m) then s.execQueue + [i] else s.execQueue
    requires if m.Task? then s1.taskQueue == s.taskQueue[Ticket(i, m.details) := Priority(s.cfg, m.details)]
             else s1.taskQueue == s.taskQueue
    requires ValidPicks(StartExecs(s1), picks) && Update(s1, now, picks).verdict == Ok
    ensures WorkConserving(Update(s1, now, picks).state)
    ensures |picks| <= 1 && |picks| <= |s1.execQueue|
    ensures |picks| == 1 ==> Top(s1.taskQueue, picks[0])
    ensures var q := Update(s1, now, picks).state.execQueue; q == s1.execQueue[|picks|..] || q == []
    ensures !m.Task? && s.taskQueue != map[] ==> |picks| == 1
  {
    StartFrame(s1);
    UpdateQueues(s1, now, picks);
    if m.Task? && s.taskQueue == map[] {
      assert s1.taskQueue.Keys == {Ticket(i, m.details)};
    }
  }

  /**
    One event in a work-conserving state brings at most one task and one executor together, and leaves the state
    work-conserving. The task is of greatest priority among all queued. Executors leave their queue in the order
    in which they entered it.
   */
  lemma OneAtATime(y: Sys, i: nat, m: Message, clock: Clock, picks: seq<Ticket>)
    requires Arrives(y, i, m) && WorkConserving(y.sv) && PicksFor(y.sv, i, m, clock, picks)
    requires HandleMsg(y.sv, i, m, clock, picks).verdict == Ok
    ensures WorkConserving(HandleMsg(y.sv, i, m, clock, picks).state)
    ensures |picks| <= 1
    ensures |picks| == 1 ==> LeadsToUpdate(m) && Top(Register(y.sv, i, m, clock.stamp).state.taskQueue, picks[0])
    ensures var q := if Ready(m) then y.sv.execQueue + [i] else y.sv.execQueue;
      |picks| <= |q| && (HandleMsg(y.sv, i, m, clock, picks).state.execQueue == q[|picks|..]
                       || HandleMsg(y.sv, i, m, clock, picks).state.execQueue == [])
    ensures !m.Task? && y.sv.taskQueue != map[] ==> (|picks| == 1 <==> Ready(m))
  {
    RegisterQueues(y, i, m, clock.stamp);
    if LeadsToUpdate(m) {
      OneMatch(y.sv, Register(y.sv, i, m, clock.stamp).state, i, m, clock.check, picks);
    }
  }

  lemma StepConserves(y: Sys, st: Step)
    requires Inv(y) && WorkConserving(y.sv) && Enabled(y, st)
    ensures WorkConserving(Apply(y, st).sv)
  {
    if st.Deliver? {
      OneAtATime(y, st.i, Next(y.sv.cfg, y.conns[st.i]).value, st.clock, st.picks);
    } else if st.Watchdog? {
      UpdateQueues(y.sv, st.now, st.picks);
    }
  }

  /** Work conservation holds between events of every run. */
  lemma {:induction false} RunConserves(y: Sys, steps: seq<Step>)
    requires Inv(y) && WorkConserving(y.sv) && Run(y, steps)
    ensures WorkConserving(After(y, steps).sv)
    decreases |steps|
  {
    if steps == [] {
    } else {
      StepConserves(y, steps[0]);
      StepKeeps(y, steps[0]);
      RunConserves(Apply(y, steps[0]), steps[1..]);
    }
  }

  lemma NeverIdleWhileQueued(y: Sys, steps: seq<Step>)
    requires Initial(y) && Run(y, steps)
    ensures After(y, steps).sv.taskQueue == map[] || After(y, steps).sv.execQueue == []
  {
    InitialInv(y);
    RunConserves(y, steps);
  }

  // ---------- bounded waiting ----------

  /** The other queued tasks that may go before `t`. */
  function Ahead(q: map<Ticket, Nanos>, t: Ticket): set<Ticket>
    requires t in q
  {
    set u | u in q && u != t && q[u] >= q[t]
  }

  predicate Submission(y: Sys, st: Step) {
    st.Deliver? && st.i < |y.conns| && Next(y.sv.cfg, y.conns[st.i]).Some? && Next(y.sv.cfg, y.conns[st.i]).value.Task?
  }

  predicate ReadyEvent(y: Sys, st: Step) {
    st.Deliver? && st.i < |y.conns| && Next(y.sv.cfg, y.conns[st.i]).Some? && Ready(Next(y.sv.cfg, y.conns[st.i]).value)
  }

  ghost predicate NoSubmissions(y: Sys, steps: seq<Step>)
    requires Run(y, steps)
    decreases |steps|
  {
    steps == [] || (!Submission(y, steps[0]) && NoSubmissions(Apply(y, steps[0]), steps[1..]))
  }

  ghost function ReadyEvents(y: Sys, steps: seq<Step>): nat
    requires Run(y, steps)
    decreases |steps|
  {
    if steps == [] then 0
    else (if ReadyEvent(y, steps[0]) then 1 else 0) + ReadyEvents(Apply(y, steps[0]), steps[1..])
  }

  /** Without submissions, a step takes one task of greatest priority out of a non-empty queue if an executor
      becomes available, and otherwise leaves the queue alone. */
  lemma QueueStep(y: Sys, st: Step)
    requires Inv(y) && WorkConserving(y.sv) && Enabled(y, st) && !Submission(y, st)
    ensures var q, q' := y.sv.taskQueue, Apply(y, st).sv.taskQueue;
      if ReadyEvent(y, st) && q != map[] then exists u :: Top(q, u) && q' == q - {u} else q' == q
  {
    if st.Deliver? {
      var m := Next(y.sv.cfg, y.conns[st.i]).value;
      RegisterQueues(y, st.i, m, st.clock.stamp);
      OneAtATime(y, st.i, m, st.clock, st.picks);
      if LeadsToUpdate(m) {
        QueueUpdate(Register(y.sv, st.i, m, st.clock.stamp).state, st.clock.check, st.picks);
        if st.picks != [] {
          assert Top(y.sv.taskQueue, st.picks[0]);
        }
      }
    } else if st.Watchdog? {
      UpdateQueues(y.sv, st.now, st.picks);
      StartFrame(y.sv);
      QueueUpdate(y.sv, st.now, st.picks);
    }
  }

  lemma AssignSingle(s: State, picks: seq<Ticket>)
    requires ValidPicks(s, picks) && |picks| == 1
    ensures Assign(s, picks) == AssignOne(s, picks[0])
  {
    assert picks[1..] == [];
  }

  lemma QueueUpdate(s: State, now: Nanos, picks: seq<Ticket>)
    requires ValidPicks(StartExecs(s), picks) && Update(s, now, picks).verdict == Ok && |picks| <= 1
    ensures Update(s, now, picks).state.taskQueue == if picks == [] then s.taskQueue else s.taskQueue - {picks[0]}
  {
    StartFrame(s);
    var s1 := Assign(StartExecs(s), picks).state;
    if picks != [] {
      AssignSingle(StartExecs(s), picks);
    }
    if ReleaseDue(s1, now) {
      ReleaseEmpties(s1);
    }
  }

  lemma AheadShrinks(q: map<Ticket, Nanos>, t: Ticket, u: Ticket)
    requires t in q && Top(q, u) && u != t
    ensures |Ahead(q - {u}, t)| == |Ahead(q, t)| - 1
  {
    assert u in Ahead(q, t) && Ahead(q - {u}, t) == Ahead(q, t) - {u};
  }

  /**
    Once submissions stop, a queued task with `k` others of at least its priority is assigned by the time `k + 1`
    executors have become available.
   */
  lemma {:induction false} BoundedWaiting(y: Sys, steps: seq<Step>, t: Ticket)
    requires Inv(y) && WorkConserving(y.sv) && Run(y, steps) && NoSubmissions(y, steps) && t in y.sv.taskQueue
    requires ReadyEvents(y, steps) > |Ahead(y.sv.taskQueue, t)|
    ensures t !in After(y, steps).sv.taskQueue
    decreases |steps|
  {
    var st, rest := steps[0], steps[1..];
    var z := Apply(y, st);
    var q, q' := y.sv.taskQueue, z.sv.taskQueue;
    QueueStep(y, st);
    StepKeeps(y, st);
    StepConserves(y, st);
    if t in q' {
      if ReadyEvent(y, st) {
        var u :| Top(q, u) && q' == q - {u};
        AheadShrinks(q, t, u);
      }
      BoundedWaiting(z, rest, t);
    } else {
      GoneForGood(z, rest, t);
    }
  }

  /** A task taken out of the queue does not come back without a submission. */
  lemma {:induction false} GoneForGood(y: Sys, steps: seq<Step>, t: Ticket)
    requires Inv(y) && WorkConserving(y.sv) && Run(y, steps) && NoSubmissions(y, steps) && t !in y.sv.taskQueue
    ensures t !in After(y, steps).sv.taskQueue
    decreases |steps|
  {
    if steps == [] {
    } else {
      var st := steps[0];
      QueueStep(y, st);
      StepKeeps(y, st);
      StepConserves(y, st);
      GoneForGood(Apply(y, st), steps[1..], t);
    }
  }

  /** The same, from the start of the server: after any run, for any continuation without submissions. */
  lemma WaitingIsBounded(y: Sys, steps: seq<Step>, more: seq<Step>, t: Ticket)
    requires Initial(y) && Run(y, steps)
    requires Run(After(y, steps), more) && NoSubmissions(After(y, steps), more) && t in After(y, steps).sv.taskQueue
    requires ReadyEvents(After(y, steps), more) > |Ahead(After(y, steps).sv.taskQueue, t)|
    ensures t !in After(After(y, steps), more).sv.taskQueue
  {
    InitialInv(y);
    RunKeeps(y, steps);
    RunConserves(y, steps);
    BoundedWaiting(After(y, steps), more, t);
  }
}
