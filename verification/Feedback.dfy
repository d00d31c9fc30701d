/** From the runs of one server to the queue priorities of a later one. */
module Feedback {
  import opened Messages
  import opened Scheduler
  import opened Composition
  import opened Invariant
  import opened ServerSteps
  import opened Runs
  import opened Guarantees
  import opened Histories
  import Admission
  import EndToEnd

  // ---------- the record a run leaves ----------

  /** A step in which the server handles the success of a task: recorded is the time it took, under the id of the
      task as its client submitted it. */
  function StepRecord(y: Sys, st: Step): Entries {
    if st.Deliver? && st.i < |y.conns| && st.i < |y.sv.remotes| && Next(y.sv.cfg, y.conns[st.i]).Some? then
      var m, p := Next(y.sv.cfg, y.conns[st.i]).value, y.sv.remotes[st.i].paired;
      if m.TaskDone? && m.exitCode == Some(0)
         && p.Some? && p.value < |y.conns| && y.conns[p.value].peer.ClientPeer? then
        map[TargetId(y.conns[p.value].peer.details) := (m.runTime, st.clock.stamp)]
      else map[]
    else map[]
  }

  /** The successes of a run; of several under one id the last counts. */
  ghost function Recorded(y: Sys, steps: seq<Step>): Entries
    requires Run(y, steps)
    decreases |steps|
  {
    if steps == [] then map[] else StepRecord(y, steps[0]) + Recorded(Apply(y, steps[0]), steps[1..])
  }

  /** The record and the configuration stay, and tasks only leave the queue. */
  predicate Kept(s: State, s': State) {
    && s'.making == s.making && s'.cfg == s.cfg
    && forall t :: t in s'.taskQueue ==> t in s.taskQueue && s'.taskQueue[t] == s.taskQueue[t]
  }

  lemma {:induction false} AssignKept(s: State, picks: seq<Ticket>)
    requires ValidPicks(s, picks)
    ensures Kept(s, Assign(s, picks).state)
    decreases |picks|
  {
    if picks == [] {
    } else {
      var o := AssignOne(s, picks[0]);
      assert Kept(s, o.state);
      if o.verdict == Ok {
        AssignKept(o.state, picks[1..]);
      }
    }
  }

  lemma {:induction false} ReleaseKept(s: State)
    ensures Kept(s, Release(s).state)
    decreases |s.execQueue|
  {
    if s.execQueue == [] {
    } else {
      var o := ReleaseOne(s);
      assert Kept(s, o.state);
      if o.verdict == Ok {
        ReleaseKept(o.state);
      }
    }
  }

  lemma UpdateKept(s: State, now: Nanos, picks: seq<Ticket>)
    requires ValidPicks(StartExecs(s), picks)
    ensures Kept(s, Update(s, now, picks).state)
  {
    StartFrame(s);
    AssignKept(StartExecs(s), picks);
    ReleaseKept(Assign(StartExecs(s), picks).state);
  }

  lemma RegisterMaking(y: Sys, st: Step, m: Message)
    requires st.Deliver? && Arrives(y, st.i, m)
    ensures Register(y.sv, st.i, m, st.clock.stamp).state.making == y.sv.making + StepRecord(y, st)
  {
    if m.TaskDone? {
      var c := EndToEnd.CompletionId(y, st.i, m);
      EndToEnd.CompletionRecorded(y.sv, st.i, c, m, st.clock.stamp);
    } else {
      assert y.sv.making + map[] == y.sv.making;
      OtherMaking(y.sv, st.i, m, st.clock.stamp);
    }
  }

  lemma OtherMaking(s: State, i: nat, m: Message, now: Nanos)
    requires i < |s.remotes| && !m.TaskDone?
    ensures Register(s, i, m, now).state.making == s.making
  {
  }

  lemma StepMaking(y: Sys, st: Step)
    requires Inv(y) && Enabled(y, st)
    ensures Apply(y, st).sv.making == y.sv.making + StepRecord(y, st)
  {
    if st.Deliver? {
      var m := Next(y.sv.cfg, y.conns[st.i]).value;
      RegisterMaking(y, st, m);
      if LeadsToUpdate(m) {
        UpdateKept(Register(y.sv, st.i, m, st.clock.stamp).state, st.clock.check, st.picks);
      }
    } else {
      assert y.sv.making + map[] == y.sv.making;
      if st.Watchdog? {
        UpdateKept(y.sv, st.now, st.picks);
      }
    }
  }

  lemma MergeAssociates(a: Entries, b: Entries, c: Entries)
    ensures (a + b) + c == a + (b + c)
  {
  }

  /** What the server has recorded after a run is exactly the run's successes, under their clients' ids. */
  lemma {:induction false} RunMaking(y: Sys, steps: seq<Step>)
    requires Inv(y) && Run(y, steps)
    ensures After(y, steps).sv.making == y.sv.making + Recorded(y, steps)
    decreases |steps|
  {
    if steps == [] {
      assert y.sv.making + map[] == y.sv.making;
    } else {
      StepMaking(y, steps[0]);
      StepKeeps(y, steps[0]);
      RunMaking(Apply(y, steps[0]), steps[1..]);
      MergeAssociates(y.sv.making, StepRecord(y, steps[0]), Recorded(Apply(y, steps[0]), steps[1..]));
    }
  }

  lemma MakingIsRecorded(y: Sys, steps: seq<Step>)
    requires Initial(y) && Run(y, steps)
    ensures After(y, steps).sv.making == Recorded(y, steps)
  {
    InitialInv(y);
    RunMaking(y, steps);
    assert map[] + Recorded(y, steps) == Recorded(y, steps);
  }

  // ---------- priorities in the queue ----------

  predicate Priced(s: State) {
    forall t :: t in s.taskQueue ==> s.taskQueue[t] == Priority(s.cfg, t.details)
  }

  lemma KeptPriced(s: State, s': State)
    requires Priced(s) && Kept(s, s')
    ensures Priced(s')
  {
  }

  lemma EndKept(s: State, i: nat, m: Message, now: Nanos)
    requires i < |s.remotes| && IsTerminal(m)
    ensures Register(s, i, m, now).state.taskQueue == s.taskQueue && Register(s, i, m, now).state.cfg == s.cfg
  {
  }

  lemma DropKept(s: State, i: nat)
    requires i < |s.remotes|
    ensures HandleDropped(s, i).state.taskQueue == s.taskQueue && HandleDropped(s, i).state.cfg == s.cfg
  {
  }

  lemma RegisterPriced(s: State, i: nat, m: Message, now: Nanos)
    requires i < |s.remotes| && Priced(s)
    ensures Priced(Register(s, i, m, now).state)
  {
    if IsTerminal(m) {
      EndKept(s, i, m, now);
    } else if m.Dropped? {
      DropKept(s, i);
    }
  }

  lemma StepPriced(y: Sys, st: Step)
    requires Enabled(y, st) && Priced(y.sv)
    ensures Priced(Apply(y, st).sv)
  {
    if st.Deliver? {
      var m := Next(y.sv.cfg, y.conns[st.i]).value;
      var s := Register(y.sv, st.i, m, st.clock.stamp).state;
      RegisterPriced(y.sv, st.i, m, st.clock.stamp);
      if LeadsToUpdate(m) {
        UpdateKept(s, st.clock.check, st.picks);
        KeptPriced(s, Update(s, st.clock.check, st.picks).state);
      }
    } else if st.Watchdog? {
      UpdateKept(y.sv, st.now, st.picks);
      KeptPriced(y.sv, Update(y.sv, st.now, st.picks).state);
    }
  }

  lemma {:induction false} RunPriced(y: Sys, steps: seq<Step>)
    requires Run(y, steps) && Priced(y.sv)
    ensures Priced(After(y, steps).sv)
    decreases |steps|
  {
    if steps == [] {
    } else {
      StepPriced(y, steps[0]);
      RunPriced(Apply(y, steps[0]), steps[1..]);
    }
  }

  // ---------- from run to run ----------

  /**
    Priority feedback from run to run: let one of the sessions behind the history file be that of a server that
    ran `steps`, the last in which a target succeeded, its entry not purged. Then in every state a later server
    reaches, a task with that target id is queued at the time its last success took, plus five minutes if it is a
    priority task.
   */
  lemma FeedbackOverRuns(start: Entries, sessions: seq<Session>, a: nat, y: Sys, steps: seq<Step>,
                         later: Sys, more: seq<Step>, t: Ticket)
    requires Initial(y) && Run(y, steps) && Initial(later) && Run(later, more)
    requires ClockForward(sessions) && LastSuccess(sessions, TargetId(t.details), a)
    requires sessions[a].making == After(y, steps).sv.making
    requires sessions[a].making[TargetId(t.details)].1 > sessions[|sessions| - 1].now - KEEP
    requires later.sv.cfg.prior == Load(FileAfter(start, sessions)) && t in After(later, more).sv.taskQueue
    ensures TargetId(t.details) in Recorded(y, steps)
    ensures After(later, more).sv.taskQueue[t]
         == Recorded(y, steps)[TargetId(t.details)].0 + (if t.details.priorityTask then 300 * SECOND else 0)
  {
    MakingIsRecorded(y, steps);
    RunPriced(later, more);
    Admission.ConfigStays(later, more);
    PriorityFeedback(start, sessions, later.sv.cfg, t.details, a);
  }
}
