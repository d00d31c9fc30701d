/** By how much the executor count is off, in every run. */
module Counting {
  import opened Messages
  import opened Scheduler
  import opened Composition
  import opened Invariant
  import opened ServerSteps
  import opened Runs
  import opened Accounts

  function Drift(s: State): int { |LiveExecs(s)| - s.running }

  // ---------- registration ----------

  lemma HelloDrift(s: State, i: nat, second: bool)
    requires i < |s.remotes| && s.remotes[i].connType != Exec
    ensures Drift(EnrolExec(s, i, second)) == Drift(s)
  {
    assert LiveExecs(EnrolExec(s, i, second)) == LiveExecs(s) + {i};
  }

  /** Remotes change, but none of them becomes or ceases to be an executor. */
  lemma SameLive(s: State, s': State)
    requires |s'.remotes| == |s.remotes| && s'.running == s.running
    requires forall k :: 0 <= k < |s.remotes| ==> (s'.remotes[k].connType == Exec <==> s.remotes[k].connType == Exec)
    ensures LiveExecs(s') == LiveExecs(s) && Drift(s') == Drift(s)
  {
    assert LiveExecs(s') == LiveExecs(s);
  }

  lemma NoticeDrift(s: State, i: nat)
    requires i < |s.remotes| && NotifyClient(s, i).verdict == Ok
    ensures Drift(NotifyClient(s, i).state) == Drift(s)
    ensures |NotifyClient(s, i).state.remotes| == |s.remotes|
    ensures NotifyClient(s, i).state.remotes[i].connType == s.remotes[i].connType
  {
    SameLive(s, NotifyClient(s, i).state);
  }

  lemma DropDrift(s: State, i: nat)
    requires i < |s.remotes| && HandleDropped(s, i).verdict == Ok
    ensures Drift(HandleDropped(s, i).state) == Drift(s)
  {
    NoticeDrift(s, i);
    var s1, s2 := NotifyClient(s, i).state, HandleDropped(s, i).state;
    assert LiveExecs(s2) == LiveExecs(s1) - {i};
    assert i in LiveExecs(s1) <==> s.remotes[i].connType == Exec;
  }

  lemma RegisterDrift(y: Sys, i: nat, m: Message, now: Nanos)
    requires Arrives(y, i, m) && Register(y.sv, i, m, now).verdict == Ok
    ensures Drift(Register(y.sv, i, m, now).state) == Drift(y.sv)
  {
    assert LocalAt(y, i);
    NextShape(y.sv.cfg, y.sv.remotes[i], y.conns[i], m);
    if m.YourObedientServant? {
      HelloDrift(y.sv, i, m.accessCode % 2 != 0);
    } else if m.Dropped? {
      DropDrift(y.sv, i);
    } else if m.Task? {
      SameLive(y.sv, Register(y.sv, i, m, now).state);
    } else {
      var c := ResultFacts(y, i, m);
      assert LocalAt(y, c);
      if m.TaskOutput? {
        OutputShape(y, i, c, m, now);
      } else {
        EndServer(y.sv, i, c, m, now);
      }
      SameLive(y.sv, Register(y.sv, i, m, now).state);
    }
  }

  // ---------- serving the queues ----------

  lemma MatchDrift(s: State, t: Ticket)
    requires t in s.taskQueue && s.execQueue != []
    ensures Drift(AssignOne(s, t).state) == Drift(s)
  {
    SameLive(s, AssignOne(s, t).state);
  }

  lemma {:induction false} AssignDrift(s: State, picks: seq<Ticket>)
    requires ValidPicks(s, picks)
    ensures Drift(Assign(s, picks).state) == Drift(s)
    decreases |picks|
  {
    if picks == [] {
    } else {
      MatchDrift(s, picks[0]);
      if AssignOne(s, picks[0]).verdict == Ok {
        AssignDrift(AssignOne(s, picks[0]).state, picks[1..]);
      }
    }
  }

  /** How many executors are released, when the queues of `s` are served, whose drop was processed before. */
  function DeadReleased(s: State, now: Nanos, picks: seq<Ticket>): nat
    requires ValidPicks(StartExecs(s), picks)
  {
    var s' := Assign(StartExecs(s), picks).state;
    if ReleaseDue(s', now) then DeadWaiting(s', 0) else 0
  }

  lemma StartDrift(s: State)
    ensures Drift(StartExecs(s)) == Drift(s)
  {
    StartFrame(s);
    SameLive(s, StartExecs(s));
  }

  lemma UpdateDrift(y: Sys, now: Nanos, picks: seq<Ticket>)
    requires Inv(y) && ValidPicks(StartExecs(y.sv), picks) && Update(y.sv, now, picks).verdict == Ok
    ensures Drift(Update(y.sv, now, picks).state) == Drift(y.sv) + DeadReleased(y.sv, now, picks)
  {
    var y1 := y.(sv := StartExecs(y.sv));
    StartDrift(y.sv);
    AssignDrift(y1.sv, picks);
    if ReleaseDue(Assign(y1.sv, picks).state, now) {
      StartFrame(y.sv);
      InvFrame(y, y1);
      AssignKeeps(y1, picks);
      InvProper(AssignSys(y1, picks));
      ReleaseDrift(Assign(y1.sv, picks).state);
    }
  }

  // ---------- over runs ----------

  /** How many executors whose drop was processed before a step releases. */
  function StepReleases(y: Sys, st: Step): nat
    requires Enabled(y, st)
  {
    if st.Watchdog? then DeadReleased(y.sv, st.now, st.picks)
    else if st.Deliver? then
      var m := Next(y.sv.cfg, y.conns[st.i]).value;
      if LeadsToUpdate(m)
      then DeadReleased(Register(y.sv, st.i, m, st.clock.stamp).state, st.clock.check, st.picks) else 0
    else 0
  }

  lemma StepDrift(y: Sys, st: Step)
    requires Inv(y) && Enabled(y, st)
    ensures Drift(Apply(y, st).sv) == Drift(y.sv) + StepReleases(y, st)
  {
    if st.Watchdog? {
      UpdateDrift(y, st.now, st.picks);
    } else if st.Deliver? {
      var m := Next(y.sv.cfg, y.conns[st.i]).value;
      var z := RegisterSys(y, st.i, m, st.clock.stamp);
      RegisterDrift(y, st.i, m, st.clock.stamp);
      if LeadsToUpdate(m) {
        RegisterKeeps(y, st.i, m, st.clock.stamp);
        UpdateDrift(z, st.clock.check, st.picks);
      }
      SameLive(HandleMsg(y.sv, st.i, m, st.clock, st.picks).state, Apply(y, st).sv);
    } else if st.Accept? {
      assert LiveExecs(Apply(y, st).sv) == LiveExecs(y.sv);
    } else {
      SameLive(y.sv, Apply(y, st).sv);
    }
  }

  ghost function DeadReleases(y: Sys, steps: seq<Step>): nat
    requires Run(y, steps)
    decreases |steps|
  {
    if steps == [] then 0 else StepReleases(y, steps[0]) + DeadReleases(Apply(y, steps[0]), steps[1..])
  }

  lemma {:induction false} RunDrift(y: Sys, steps: seq<Step>)
    requires Inv(y) && Run(y, steps)
    ensures Drift(After(y, steps).sv) == Drift(y.sv) + DeadReleases(y, steps)
    decreases |steps|
  {
    if steps == [] {
    } else {
      StepDrift(y, steps[0]);
      StepKeeps(y, steps[0]);
      RunDrift(Apply(y, steps[0]), steps[1..]);
    }
  }

  /**
    In every run the executor count is too low by exactly the number of executors that were released after their
    drop had been processed; so it is right if and only if there was no such release.
   */
  lemma ExecutorCountExact(y: Sys, steps: seq<Step>)
    requires Initial(y) && Run(y, steps)
    ensures |LiveExecs(After(y, steps).sv)| == After(y, steps).sv.running + DeadReleases(y, steps)
    ensures After(y, steps).sv.running == |LiveExecs(After(y, steps).sv)| <==> DeadReleases(y, steps) == 0
  {
    InitialInv(y);
    RunDrift(y, steps);
    assert LiveExecs(y.sv) == {};
  }
}
