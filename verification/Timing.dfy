/** When the server stops and when it sends idle executors away, in terms of the clock readings of a run. */
module Timing {
  import opened Messages
  import opened Scheduler
  import opened Composition
  import opened Invariant
  import opened ServerSteps
  import opened Runs
  import opened Accounts
  import opened Relay
  import opened Guarantees
  import opened Matching
  import Admission

  /** More than `k` whole seconds have passed exactly if `k` + 1 seconds have. */
  lemma ElapsedExact(now: Nanos, since: Nanos, k: nat)
    ensures Elapsed(now, since) > k <==> now >= since + (k + 1) * 1_000_000_000
  {
  }

  // ---------- the two time stamps ----------

  predicate SameStamps(s: State, s': State) {
    s'.lastActivity == s.lastActivity && s'.lastSubmit == s.lastSubmit && s'.cfg == s.cfg
  }

  lemma {:induction false} AssignStamps(s: State, picks: seq<Ticket>)
    requires ValidPicks(s, picks)
    ensures SameStamps(s, Assign(s, picks).state)
    decreases |picks|
  {
    if picks == [] {
    } else {
      var o := AssignOne(s, picks[0]);
      assert SameStamps(s, o.state);
      if o.verdict == Ok {
        AssignStamps(o.state, picks[1..]);
      }
    }
  }

  lemma {:induction false} ReleaseStamps(s: State)
    ensures SameStamps(s, Release(s).state)
    decreases |s.execQueue|
  {
    if s.execQueue == [] {
    } else {
      var o := ReleaseOne(s);
      assert SameStamps(s, o.state);
      if o.verdict == Ok {
        ReleaseStamps(o.state);
      }
    }
  }

  lemma UpdateStamps(s: State, now: Nanos, picks: seq<Ticket>)
    requires ValidPicks(StartExecs(s), picks)
    ensures SameStamps(s, Update(s, now, picks).state)
  {
    StartFrame(s);
    AssignStamps(StartExecs(s), picks);
    ReleaseStamps(Assign(StartExecs(s), picks).state);
  }

  lemma RegisterStamps(s: State, i: nat, m: Message, now: Nanos)
    requires i < |s.remotes| && Register(s, i, m, now).verdict == Ok
    ensures var s' := Register(s, i, m, now).state;
      s'.lastActivity == s.lastActivity && s'.cfg == s.cfg
      && s'.lastSubmit == if m.Task? then Some(now) else s.lastSubmit
  {
    if IsTerminal(m) {
      EndStamps(s, i, m, now);
    }
  }

  lemma EndStamps(s: State, i: nat, m: Message, now: Nanos)
    requires i < |s.remotes| && IsTerminal(m)
    ensures SameStamps(s, Register(s, i, m, now).state)
  {
    assert SameStamps(s, RelayTerminal(s, i, m, now).state);
  }

  // ---------- the last message and the last submission of a run ----------

  /** The stamp of the last message delivered. */
  function LastMessage(steps: seq<Step>): Option<Nanos> {
    if steps == [] then None
    else
      var later := LastMessage(steps[1..]);
      if later.Some? then later else if steps[0].Deliver? then Some(steps[0].clock.stamp) else None
  }

  /** The stamp of the task a step delivers, if it delivers one. */
  function Submits(y: Sys, st: Step): Option<Nanos> {
    if Submission(y, st) then Some(st.clock.stamp) else None
  }

  /** The stamp of the last task delivered. */
  ghost function LastTask(y: Sys, steps: seq<Step>): Option<Nanos>
    requires Run(y, steps)
    decreases |steps|
  {
    if steps == [] then None
    else
      var later := LastTask(Apply(y, steps[0]), steps[1..]);
      if later.Some? then later else Submits(y, steps[0])
  }

  lemma StepStamps(y: Sys, st: Step)
    requires Enabled(y, st)
    ensures var s, s' := y.sv, Apply(y, st).sv;
      && s'.lastActivity == (if st.Deliver? then st.clock.stamp else s.lastActivity)
      && s'.lastSubmit == (if Submits(y, st).Some? then Submits(y, st) else s.lastSubmit)
  {
    if st.Watchdog? {
      UpdateStamps(y.sv, st.now, st.picks);
    } else if st.Deliver? {
      var m := Next(y.sv.cfg, y.conns[st.i]).value;
      RegisterStamps(y.sv, st.i, m, st.clock.stamp);
      if LeadsToUpdate(m) {
        UpdateStamps(Register(y.sv, st.i, m, st.clock.stamp).state, st.clock.check, st.picks);
      }
    }
  }

  lemma {:induction false} RunStamps(y: Sys, steps: seq<Step>)
    requires Run(y, steps)
    ensures var s, s' := y.sv, After(y, steps).sv;
      && s'.lastActivity == (if LastMessage(steps).Some? then LastMessage(steps).value else s.lastActivity)
      && s'.lastSubmit == (if LastTask(y, steps).Some? then LastTask(y, steps) else s.lastSubmit)
    decreases |steps|
  {
    if steps == [] {
    } else {
      StepStamps(y, steps[0]);
      RunStamps(Apply(y, steps[0]), steps[1..]);
    }
  }

  // ---------- stopping ----------

  /** After a run the server may stop exactly if nothing is queued, no executor is counted, and the configured
      number of seconds and one more have passed since the last message it handled, or since it started if there
      was none. */
  lemma ShutdownWaits(y: Sys, steps: seq<Step>, now: Nanos)
    requires Initial(y) && Run(y, steps)
    ensures var s := After(y, steps).sv;
      var since := if LastMessage(steps).Some? then LastMessage(steps).value else y.sv.lastActivity;
      OkToShutdown(s, now)
      <==> s.taskQueue == map[] && s.running == 0 && now >= since + (y.sv.cfg.idleShutdownAfter + 1) * 1_000_000_000
  {
    RunStamps(y, steps);
    Admission.ConfigStays(y, steps);
    ElapsedExact(now, After(y, steps).sv.lastActivity, y.sv.cfg.idleShutdownAfter);
  }

  // ---------- sending executors away ----------

  /** What a channel gained is no dismissal. */
  predicate NoneDismissed(s: State, s': State) {
    && Grown(s, s')
    && forall i, a :: 0 <= i < |s.remotes| && |s.remotes[i].chan.log| <= a < |s'.remotes[i].chan.log| ==>
         !s'.remotes[i].chan.log[a].PissOff?
  }

  lemma NoneTransitive(a: State, b: State, c: State)
    requires NoneDismissed(a, b) && NoneDismissed(b, c)
    ensures NoneDismissed(a, c)
  {
    GrownTransitive(a, b, c);
    forall i, k | 0 <= i < |a.remotes| && |a.remotes[i].chan.log| <= k < |c.remotes[i].chan.log|
      ensures !c.remotes[i].chan.log[k].PissOff?
    {
      if k < |b.remotes[i].chan.log| {
        assert b.remotes[i].chan.log <= c.remotes[i].chan.log;
        assert c.remotes[i].chan.log[k] == b.remotes[i].chan.log[k];
      }
    }
  }

  lemma {:induction false} AssignDismissesNone(s: State, picks: seq<Ticket>)
    requires ValidPicks(s, picks)
    ensures NoneDismissed(s, Assign(s, picks).state)
    decreases |picks|
  {
    if picks == [] {
    } else {
      var o := AssignOne(s, picks[0]);
      assert NoneDismissed(s, o.state);
      if o.verdict == Ok {
        AssignDismissesNone(o.state, picks[1..]);
        NoneTransitive(s, o.state, Assign(s, picks).state);
      }
    }
  }

  lemma EndDismissesNone(s: State, i: nat, c: nat, m: Message, now: Nanos)
    requires i < |s.remotes| && c < |s.remotes| && c != i && s.remotes[i].paired == Some(c) && IsTerminal(m)
    ensures NoneDismissed(s, Register(s, i, m, now).state)
  {
    RegisterGrows(s, i, m, now);
    EndServer(s, i, c, m, now);
  }

  lemma OutputDismissesNone(y: Sys, i: nat, c: nat, m: Message, now: Nanos)
    requires Sizes(y) && Coupled(y, i, c) && m.TaskOutput?
    ensures NoneDismissed(y.sv, Register(y.sv, i, m, now).state)
  {
    RegisterGrows(y.sv, i, m, now);
    OutputShape(y, i, c, m, now);
  }

  lemma DropDismissesNone(s: State, i: nat)
    requires i < |s.remotes|
    ensures NoneDismissed(s, HandleDropped(s, i).state)
  {
    DropGrows(s, i);
  }

  lemma RegisterDismissesNone(y: Sys, i: nat, m: Message, now: Nanos)
    requires Arrives(y, i, m)
    ensures NoneDismissed(y.sv, Register(y.sv, i, m, now).state)
  {
    assert LocalAt(y, i);
    NextShape(y.sv.cfg, y.sv.remotes[i], y.conns[i], m);
    if m.Dropped? {
      DropDismissesNone(y.sv, i);
    } else if IsResult(m) {
      var c := ResultFacts(y, i, m);
      if m.TaskOutput? {
        OutputDismissesNone(y, i, c, m, now);
      } else {
        EndDismissesNone(y.sv, i, c, m, now);
      }
    }
  }

  /** The clock reading by which a step decides on releases, if it serves the queues. */
  function ServedAt(y: Sys, st: Step): Option<Nanos> {
    if st.Watchdog? then Some(st.now)
    else if st.Deliver? && st.i < |y.conns| && Next(y.sv.cfg, y.conns[st.i]).Some?
            && LeadsToUpdate(Next(y.sv.cfg, y.conns[st.i]).value) then Some(st.clock.check)
    else None
  }

  /** The last submission as the step sees it. */
  function Submitted(y: Sys, st: Step): Option<Nanos> {
    if Submits(y, st).Some? then Submits(y, st) else y.sv.lastSubmit
  }

  predicate Due(y: Sys, st: Step) {
    && ServedAt(y, st).Some? && Submitted(y, st).Some?
    && ServedAt(y, st).value >= Submitted(y, st).value + (y.sv.cfg.releaseDelay + 1) * 1_000_000_000
  }

  lemma UpdateDismissesNone(s: State, now: Nanos, picks: seq<Ticket>)
    requires ValidPicks(StartExecs(s), picks) && !ReleaseDue(s, now)
    ensures NoneDismissed(s, Update(s, now, picks).state)
  {
    StartFrame(s);
    var s1 := StartExecs(s);
    assert NoneDismissed(s, s1);
    AssignDismissesNone(s1, picks);
    AssignStamps(s1, picks);
    NoneTransitive(s, s1, Assign(s1, picks).state);
  }

  lemma StepDismissesNone(y: Sys, st: Step)
    requires Inv(y) && Enabled(y, st) && !Due(y, st)
    ensures NoneDismissed(y.sv, Apply(y, st).sv)
  {
    if st.Watchdog? {
      if y.sv.lastSubmit.Some? {
        ElapsedExact(st.now, y.sv.lastSubmit.value, y.sv.cfg.releaseDelay);
      }
      UpdateDismissesNone(y.sv, st.now, st.picks);
    } else if st.Deliver? {
      var m := Next(y.sv.cfg, y.conns[st.i]).value;
      var s := Register(y.sv, st.i, m, st.clock.stamp).state;
      RegisterDismissesNone(y, st.i, m, st.clock.stamp);
      RegisterStamps(y.sv, st.i, m, st.clock.stamp);
      if LeadsToUpdate(m) {
        if s.lastSubmit.Some? {
          ElapsedExact(st.clock.check, s.lastSubmit.value, y.sv.cfg.releaseDelay);
        }
        UpdateDismissesNone(s, st.clock.check, st.picks);
        NoneTransitive(y.sv, s, Update(s, st.clock.check, st.picks).state);
      }
    }
  }

  /** Released: marked dead, with the dismissal at the end of its channel. */
  predicate SentAway(s: State, s': State, e: nat)
    requires e < |s.remotes| == |s'.remotes|
  {
    s'.remotes[e].connType == Dead && s'.remotes[e].chan.log == s.remotes[e].chan.log + [PissOff]
  }

  lemma {:induction false} ReleaseSendsAway(s: State)
    requires QueueProper(s) && Release(s).verdict == Ok
    ensures var s' := Release(s).state;
      && s'.execQueue == [] && |s'.remotes| == |s.remotes|
      && (forall a :: 0 <= a < |s.execQueue| ==> SentAway(s, s', s.execQueue[a]))
      && (forall k :: 0 <= k < |s.remotes| && k !in s.execQueue ==> s'.remotes[k] == s.remotes[k])
    decreases |s.execQueue|
  {
    if s.execQueue == [] {
    } else {
      var e, s1, s' := s.execQueue[0], ReleaseOne(s).state, Release(s).state;
      ReleaseOneDrift(s);
      ReleaseSendsAway(s1);
      forall a | 0 <= a < |s.execQueue| ensures SentAway(s, s', s.execQueue[a]) {
        if a == 0 {
          assert e !in s1.execQueue;
        } else {
          assert s1.execQueue[a - 1] == s.execQueue[a] && SentAway(s1, s', s1.execQueue[a - 1]);
        }
      }
      forall k | 0 <= k < |s.remotes| && k !in s.execQueue ensures s'.remotes[k] == s.remotes[k] {
        assert k !in s1.execQueue && k != e;
      }
    }
  }

  /** With nothing queued and a release due, everyone waiting is sent away. */
  lemma UpdateSendsAway(s: State, now: Nanos, picks: seq<Ticket>)
    requires QueueProper(s) && ValidPicks(StartExecs(s), picks) && Update(s, now, picks).verdict == Ok
    requires ReleaseDue(s, now) && s.taskQueue == map[]
    ensures var s' := Update(s, now, picks).state;
      && |s'.remotes| == |s.remotes| && s'.execQueue == []
      && forall a :: 0 <= a < |s.execQueue| ==> SentAway(s, s', s.execQueue[a])
  {
    StartFrame(s);
    var s1 := StartExecs(s);
    assert picks == [];
    ReleaseSendsAway(s1);
    forall a | 0 <= a < |s.execQueue| ensures SentAway(s, Update(s, now, picks).state, s.execQueue[a]) {
      assert SentAway(s1, Release(s1).state, s1.execQueue[a]);
    }
  }

  /** The executors waiting when a step serves the queues. */
  function WaitingThen(y: Sys, st: Step): seq<nat> {
    if ReadyEvent(y, st) then y.sv.execQueue + [st.i] else y.sv.execQueue
  }

  /** Registering leaves the channels of those who wait alone. */
  lemma WaitersUntouched(y: Sys, i: nat, m: Message, now: Nanos, e: nat)
    requires Arrives(y, i, m) && Ready(m) && (e in y.sv.execQueue || e == i)
    ensures var s' := Register(y.sv, i, m, now).state;
      e < |y.sv.remotes| == |s'.remotes| && s'.remotes[e].chan == y.sv.remotes[e].chan
  {
    WaitingAreExecs(y);
    if IsTerminal(m) {
      var c := ResultFacts(y, i, m);
      EndServer(y.sv, i, c, m, now);
    }
  }

  lemma MessageSendsAway(y: Sys, i: nat, m: Message, clock: Clock, picks: seq<Ticket>, e: nat)
    requires Arrives(y, i, m) && Ready(m) && PicksFor(y.sv, i, m, clock, picks)
    requires HandleMsg(y.sv, i, m, clock, picks).verdict == Ok && y.sv.taskQueue == map[]
    requires ReleaseDue(y.sv, clock.check) && (e in y.sv.execQueue || e == i)
    ensures var s' := HandleMsg(y.sv, i, m, clock, picks).state;
      e < |y.sv.remotes| == |s'.remotes| && s'.execQueue == [] && SentAway(y.sv, s', e)
  {
    var s := Register(y.sv, i, m, clock.stamp).state;
    RegisterStamps(y.sv, i, m, clock.stamp);
    RegisterQueues(y, i, m, clock.stamp);
    RegisterKeeps(y, i, m, clock.stamp);
    InvProper(RegisterSys(y, i, m, clock.stamp));
    UpdateSendsAway(s, clock.check, picks);
    WaitersUntouched(y, i, m, clock.stamp, e);
    assert e in s.execQueue;
    var a :| 0 <= a < |s.execQueue| && s.execQueue[a] == e;
    assert SentAway(s, Update(s, clock.check, picks).state, s.execQueue[a]);
  }

  lemma StepSendsAway(y: Sys, st: Step, e: nat)
    requires Inv(y) && Enabled(y, st) && Due(y, st) && y.sv.taskQueue == map[] && !Submission(y, st)
    requires e in WaitingThen(y, st)
    ensures e < |y.sv.remotes| == |Apply(y, st).sv.remotes| && Apply(y, st).sv.execQueue == []
    ensures SentAway(y.sv, Apply(y, st).sv, e)
  {
    ElapsedExact(ServedAt(y, st).value, y.sv.lastSubmit.value, y.sv.cfg.releaseDelay);
    if st.Watchdog? {
      InvProper(y);
      UpdateSendsAway(y.sv, st.now, st.picks);
      var a :| 0 <= a < |y.sv.execQueue| && y.sv.execQueue[a] == e;
      assert SentAway(y.sv, Update(y.sv, st.now, st.picks).state, y.sv.execQueue[a]);
    } else {
      MessageSendsAway(y, st.i, Next(y.sv.cfg, y.conns[st.i]).value, st.clock, st.picks, e);
    }
  }

  /**
    When executors are sent away. After any run, a step whose clock reading is less than the configured number of
    seconds and one more after the last submission, its own included, dismisses nobody, and neither does any step
    before the first submission. A step that serves the queues at or after that time, with nothing queued,
    dismisses every executor that waits, the one just become ready included.
   */
  lemma ReleaseTimely(y: Sys, steps: seq<Step>, st: Step)
    requires Initial(y) && Run(y, steps) && Enabled(After(y, steps), st)
    ensures var z := After(y, steps); var w := Apply(z, st);
      var last := if Submits(z, st).Some? then Submits(z, st) else LastTask(y, steps);
      var due := ServedAt(z, st).Some? && last.Some?
                 && ServedAt(z, st).value >= last.value + (y.sv.cfg.releaseDelay + 1) * 1_000_000_000;
      && (!due ==> NoneDismissed(z.sv, w.sv))
      && (due && z.sv.taskQueue == map[] && !Submission(z, st) ==>
            forall e :: e in WaitingThen(z, st) ==>
              e < |z.sv.remotes| == |w.sv.remotes| && w.sv.execQueue == [] && SentAway(z.sv, w.sv, e))
  {
    Reached(y, steps);
    RunStamps(y, steps);
    Admission.ConfigStays(y, steps);
    var z := After(y, steps);
    if !Due(z, st) {
      StepDismissesNone(z, st);
    } else if z.sv.taskQueue == map[] && !Submission(z, st) {
      forall e | e in WaitingThen(z, st)
        ensures e < |z.sv.remotes| == |Apply(z, st).sv.remotes| && Apply(z, st).sv.execQueue == []
        ensures SentAway(z.sv, Apply(z, st).sv, e)
      {
        StepSendsAway(z, st, e);
      }
    }
  }
}
