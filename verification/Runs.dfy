/** The invariant over whole runs, and freedom from failed assertions. */
module Runs {
  import opened Messages
  import opened Scheduler
  import opened Composition
  import opened Invariant
  import opened PeerSteps
  import opened ServerSteps

  lemma RegisterKeeps(y: Sys, i: nat, m: Message, now: Nanos)
    requires Arrives(y, i, m) && Register(y.sv, i, m, now).verdict == Ok
    ensures Inv(RegisterSys(y, i, m, now))
  {
    assert LocalAt(y, i);
    NextShape(y.sv.cfg, y.sv.remotes[i], y.conns[i], m);
    if m.YourObedientServant? {
      HelloKeeps(y, i, m, now);
    } else if m.Task? {
      SubmitKeeps(y, i, m, now);
    } else if m.TaskOutput? {
      OutputKeeps(y, i, m, now);
    } else if IsTerminal(m) {
      EndKeeps(y, i, m, now);
    } else if y.sv.remotes[i].connType == Exec && y.sv.remotes[i].paired.Some? {
      BusyDropKeeps(y, i, now);
    } else {
      QuietDropKeeps(y, i, now);
    }
  }

  /** Handling any message that can arrive trips no assertion; a drop may still find a zero counter or a
      closed channel. */
  lemma RegisterSafe(y: Sys, i: nat, m: Message, now: Nanos)
    requires Arrives(y, i, m)
    ensures Register(y.sv, i, m, now).verdict != AssertFailed
    ensures !m.Dropped? ==> Register(y.sv, i, m, now).verdict == Ok
  {
    assert LocalAt(y, i);
    NextShape(y.sv.cfg, y.sv.remotes[i], y.conns[i], m);
    if m.TaskOutput? {
      var c := ResultFacts(y, i, m);
      OutputShape(y, i, c, m, now);
    } else if IsTerminal(m) {
      var c := ResultFacts(y, i, m);
      EndServer(y.sv, i, c, m, now);
    } else if m.Dropped? && y.sv.remotes[i].connType == Exec && y.sv.remotes[i].paired.Some? {
      var c := DropFacts(y, i);
    }
  }

  /** Launching changes nothing but the two pending counters. */
  lemma {:induction false} LaunchFrame(s: State, alt: bool, keep: nat)
    ensures var s' := Launch(s, alt, keep);
      s' == s.(pending := s'.pending, secondPending := s'.secondPending)
    decreases if LaunchGuard(s, alt, keep) then keep - (if alt then s.secondPending else s.pending) else 0
  {
    if !LaunchGuard(s, alt, keep) {
    } else {
      LaunchFrame(LaunchOne(s, alt), alt, keep);
    }
  }

  lemma StartFrame(s: State)
    ensures var s' := StartExecs(s);
      s' == s.(pending := s'.pending, secondPending := s'.secondPending)
  {
    var half := (KeepPending(s) + 1) / 2;
    LaunchFrame(s, false, half);
    LaunchFrame(Launch(s, false, half), true, half);
    LaunchFrame(s, false, KeepPending(s));
  }

  /** The matching loop keeps the invariant and fails only on a closed channel. */
  lemma {:induction false} AssignKeeps(y: Sys, picks: seq<Ticket>)
    requires Inv(y) && ValidPicks(y.sv, picks)
    ensures Assign(y.sv, picks).verdict == Ok || Assign(y.sv, picks).verdict == SendError
    ensures AssignSys(y, picks).sv == Assign(y.sv, picks).state
    ensures Assign(y.sv, picks).verdict == Ok ==> Inv(AssignSys(y, picks))
    decreases |picks|
  {
    if picks == [] {
    } else {
      MatchFacts(y, picks[0]);
      if AssignOne(y.sv, picks[0]).verdict == Ok {
        MatchKeeps(y, picks[0]);
        AssignKeeps(AssignOneSys(y, picks[0]), picks[1..]);
      }
    }
  }

  lemma {:induction false} ReleaseKeeps(y: Sys)
    requires Inv(y)
    ensures Release(y.sv).verdict != AssertFailed
    ensures Release(y.sv).verdict == Ok ==> Inv(y.(sv := Release(y.sv).state))
    decreases |y.sv.execQueue|
  {
    if y.sv.execQueue == [] {
    } else {
      assert WaitingOK(y, y.sv.execQueue[0]);
      if ReleaseOne(y.sv).verdict == Ok {
        var z := y.(sv := ReleaseOne(y.sv).state);
        FreeKeeps(y, z);
        ReleaseKeeps(z);
      }
    }
  }

  lemma UpdateKeeps(y: Sys, now: Nanos, picks: seq<Ticket>)
    requires Inv(y) && ValidPicks(StartExecs(y.sv), picks)
    ensures Update(y.sv, now, picks).verdict != AssertFailed
    ensures Update(y.sv, now, picks).verdict == Ok ==> Inv(UpdateSys(y, now, picks))
  {
    var y1 := y.(sv := StartExecs(y.sv));
    StartFrame(y.sv);
    InvFrame(y, y1);
    AssignKeeps(y1, picks);
    if Assign(y1.sv, picks).verdict == Ok {
      ReleaseKeeps(AssignSys(y1, picks));
    }
  }

  lemma DeliverKeeps(y: Sys, i: nat, clock: Clock, picks: seq<Ticket>)
    requires Inv(y) && Enabled(y, Deliver(i, clock, picks))
    ensures Inv(Apply(y, Deliver(i, clock, picks)))
  {
    var m := Next(y.sv.cfg, y.conns[i]).value;
    RegisterKeeps(y, i, m, clock.stamp);
    var z := RegisterSys(y, i, m, clock.stamp);
    if LeadsToUpdate(m) {
      UpdateKeeps(z, clock.check, picks);
    }
    InvFrame(HandleSys(y, i, m, clock, picks), Apply(y, Deliver(i, clock, picks)));
  }

  lemma StepKeeps(y: Sys, st: Step)
    requires Inv(y) && Enabled(y, st)
    ensures Inv(Apply(y, st))
  {
    match st
    case Accept(p) => AcceptKeeps(y, p);
    case PeerStart(i) => StartKeeps(y, i);
    case PeerRead(i) => ReadKeeps(y, i);
    case ExecEmit(i, m) => EmitKeeps(y, i, m);
    case PeerDie(i) => DieKeeps(y, i);
    case HandlerForward(_) => HandlerKeeps(y, st);
    case HandlerWrite(_) => HandlerKeeps(y, st);
    case HandlerEof(_) => HandlerKeeps(y, st);
    case HandlerFail(_) => HandlerKeeps(y, st);
    case HandlerClose(i) => CloseKeeps(y, i);
    case Deliver(i, clock, picks) => DeliverKeeps(y, i, clock, picks);
    case Watchdog(now, picks) => UpdateKeeps(y, now, picks);
  }

  lemma {:induction false} RunKeeps(y: Sys, steps: seq<Step>)
    requires Inv(y) && Run(y, steps)
    ensures Inv(After(y, steps))
    decreases |steps|
  {
    if steps == [] {
    } else {
      StepKeeps(y, steps[0]);
      RunKeeps(Apply(y, steps[0]), steps[1..]);
    }
  }
}
