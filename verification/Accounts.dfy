/** The server's counters agree with its table of remotes. */
module Accounts {
  import opened Messages
  import opened Scheduler
  import opened Composition
  import opened Invariant
  import opened PeerSteps
  import opened ServerSteps
  import opened Runs

  /** Executors that have a task they have not finished, including those that dropped with it. */
  function Engaged(y: Sys): set<nat> {
    set e: nat | 0 <= e < |y.conns| && e < |y.sv.remotes| && y.conns[e].peer.ExecPeer? && y.sv.remotes[e].paired.Some?
  }

  function LiveExecs(s: State): set<nat> {
    set e: nat | 0 <= e < |s.remotes| && s.remotes[e].connType == Exec
  }

  /** Every task submitted is finished, queued, or with exactly one executor. */
  predicate Conserved(y: Sys) {
    y.sv.submitCount == y.sv.finishCount + |y.sv.taskQueue| + |Engaged(y)|
  }

  /** What becomes of an assigned task. Given to an executor already marked dead, it is lost: nothing comes of
      it. Otherwise, if the executor dropped with it, the client has been told. */
  predicate FateAt(y: Sys, c: nat)
    requires Sizes(y) && c < |y.conns|
  {
    y.conns[c].job.Some? && y.conns[c].job.value.exec < |y.conns| ==>
      var j, e := y.conns[c].job.value, y.conns[c].job.value.exec;
      && (j.lost ==> y.sv.remotes[e].connType == Dead && y.conns[e].done > y.conns[e].fwd && j.stop.None? && !j.failed)
      && (!j.lost && j.stop.None? && y.sv.remotes[e].connType != Exec ==> j.failed)
      && (j.failed ==> y.sv.remotes[e].connType == Dead)
  }

  /** The books of every run. */
  predicate Sound(y: Sys) {
    Sizes(y) && Conserved(y) && forall c :: 0 <= c < |y.conns| ==> FateAt(y, c)
  }

  predicate NotLost(k: Conn) { k.job.Some? ==> !k.job.value.lost }

  /** What holds beside that as long as no idle executor's drop was processed. */
  predicate Tidy(y: Sys)
    requires Sizes(y)
  {
    && y.sv.running == |LiveExecs(y.sv)|
    && (forall a :: 0 <= a < |y.sv.execQueue| ==>
          y.sv.execQueue[a] < |y.sv.remotes| && y.sv.remotes[y.sv.execQueue[a]].connType == Exec)
    && (forall c :: 0 <= c < |y.conns| ==> NotLost(y.conns[c]))
  }

  // ---------- steps outside the server ----------

  predicate Outside(st: Step) {
    !st.Accept? && !st.Deliver? && !st.Watchdog?
  }

  lemma OutsideFrame(y: Sys, st: Step)
    requires Inv(y) && Outside(st) && Enabled(y, st)
    ensures var z := Apply(y, st);
      && Sizes(z) && |z.conns| == |y.conns|
      && z.sv == y.sv.(remotes := z.sv.remotes)
      && (forall j :: 0 <= j < |y.conns| ==>
            && (z.conns[j].peer.ExecPeer? <==> y.conns[j].peer.ExecPeer?) && z.conns[j].job == y.conns[j].job
            && (y.conns[j].done > y.conns[j].fwd ==> z.conns[j].done > z.conns[j].fwd)
            && z.sv.remotes[j].connType == y.sv.remotes[j].connType && z.sv.remotes[j].paired == y.sv.remotes[j].paired)
  {
    assert LocalAt(y, st.i);
  }

  lemma OutsideAccounts(y: Sys, st: Step)
    requires Inv(y) && Outside(st) && Enabled(y, st)
    ensures var z := Apply(y, st);
      Sizes(z) && Engaged(z) == Engaged(y) && (Sound(y) ==> Sound(z)) && (Tidy(y) ==> Tidy(z))
  {
    var z := Apply(y, st);
    OutsideFrame(y, st);
    assert Engaged(z) == Engaged(y);
    assert LiveExecs(z.sv) == LiveExecs(y.sv);
    forall c | 0 <= c < |z.conns| && FateAt(y, c) ensures FateAt(z, c) {
    }
  }

  lemma AcceptAccounts(y: Sys, p: Peer)
    requires Inv(y) && Enabled(y, Accept(p))
    ensures var z := Apply(y, Accept(p));
      Sizes(z) && Engaged(z) == Engaged(y) && (Sound(y) ==> Sound(z)) && (Tidy(y) ==> Tidy(z))
  {
    var z := Apply(y, Accept(p));
    assert Engaged(z) == Engaged(y);
    assert LiveExecs(z.sv) == LiveExecs(y.sv);
    JobsDoAgree(y);
    forall c | 0 <= c < |z.conns| && (c < |y.conns| ==> FateAt(y, c)) ensures FateAt(z, c) {
      assert c < |y.conns| ==> JobAgrees(y, c);
    }
  }

  // ---------- messages ----------

  lemma HelloAccounts(y: Sys, i: nat, m: Message, now: Nanos)
    requires Arrives(y, i, m) && m.YourObedientServant?
    ensures var z := RegisterSys(y, i, m, now);
      Sizes(z) && (Sound(y) ==> Sound(z)) && (Tidy(y) ==> Tidy(z))
  {
    var z := RegisterSys(y, i, m, now);
    assert LocalAt(y, i);
    NextShape(y.sv.cfg, y.sv.remotes[i], y.conns[i], m);
    assert Engaged(z) == Engaged(y);
    assert LiveExecs(z.sv) == LiveExecs(y.sv) + {i};
    forall c | 0 <= c < |z.conns| && FateAt(y, c) ensures FateAt(z, c) {
    }
  }

  lemma SubmitAccounts(y: Sys, i: nat, m: Message, now: Nanos)
    requires Arrives(y, i, m) && m.Task?
    ensures var z := RegisterSys(y, i, m, now);
      Sizes(z) && (Sound(y) ==> Sound(z)) && (Tidy(y) ==> Tidy(z))
  {
    var z := RegisterSys(y, i, m, now);
    var t := Ticket(i, m.details);
    assert LocalAt(y, i);
    NextShape(y.sv.cfg, y.sv.remotes[i], y.conns[i], m);
    assert t !in y.sv.taskQueue by {
      assert !QueuedOK(y, t);
    }
    assert z.sv.taskQueue.Keys == y.sv.taskQueue.Keys + {t};
    assert Engaged(z) == Engaged(y);
    assert LiveExecs(z.sv) == LiveExecs(y.sv);
    forall c | 0 <= c < |z.conns| && FateAt(y, c) ensures FateAt(z, c) {
    }
  }

  lemma OutputAccounts(y: Sys, i: nat, m: Message, now: Nanos)
    requires Arrives(y, i, m) && m.TaskOutput?
    ensures var z := RegisterSys(y, i, m, now);
      Sizes(z) && (Sound(y) ==> Sound(z)) && (Tidy(y) ==> Tidy(z))
  {
    var c := ResultFacts(y, i, m);
    OutputShape(y, i, c, m, now);
    var z := RegisterSys(y, i, m, now);
    assert LocalAt(y, c);
    assert Engaged(z) == Engaged(y);
    assert LiveExecs(z.sv) == LiveExecs(y.sv);
    forall d | 0 <= d < |z.conns| && FateAt(y, d) ensures FateAt(z, d) {
    }
    WaitingAreExecs(y);
  }

  /** Waiting executors are executors, so what happens to a client's remote does not concern them. */
  lemma WaitingAreExecs(y: Sys)
    requires Inv(y)
    ensures var q := y.sv.execQueue;
      forall a :: 0 <= a < |q| ==>
        q[a] < |y.conns| && y.conns[q[a]].peer.ExecPeer? && y.sv.remotes[q[a]].paired.None?
  {
    var q := y.sv.execQueue;
    forall a | 0 <= a < |q|
      ensures q[a] < |y.conns| && y.conns[q[a]].peer.ExecPeer? && y.sv.remotes[q[a]].paired.None?
    {
      assert WaitingOK(y, q[a]);
    }
  }

  lemma EndedAccounts(y: Sys, z: Sys, i: nat, c: nat, m: Message)
    requires Ended(y, z, i, c, m) && y.sv.remotes[c].connType != Exec
    requires z.sv.submitCount == y.sv.submitCount && z.sv.finishCount == y.sv.finishCount + 1
    requires z.sv.running == y.sv.running
    requires c !in y.sv.execQueue
    ensures (Sound(y) ==> Sound(z)) && (Tidy(y) ==> Tidy(z))
  {
    assert i in Engaged(y);
    assert Engaged(z) == Engaged(y) - {i};
    assert LiveExecs(z.sv) == LiveExecs(y.sv);
    forall d | 0 <= d < |z.conns| && FateAt(y, d) ensures FateAt(z, d) {
    }
  }

  lemma EndAccounts(y: Sys, i: nat, m: Message, now: Nanos)
    requires Arrives(y, i, m) && IsTerminal(m)
    ensures var z := RegisterSys(y, i, m, now);
      Sizes(z) && (Sound(y) ==> Sound(z)) && (Tidy(y) ==> Tidy(z))
  {
    var c := ResultFacts(y, i, m);
    EndServer(y.sv, i, c, m, now);
    var z := RegisterSys(y, i, m, now);
    assert Ended(y, z, i, c, m);
    assert LocalAt(y, c);
    WaitingAreExecs(y);
    EndedAccounts(y, z, i, c, m);
  }

  lemma BrokenAccounts(y: Sys, z: Sys, i: nat, c: nat)
    requires Broken(y, z, i, c) && y.sv.remotes[c].connType != Exec && JobsAgree(y)
    requires z.sv.submitCount == y.sv.submitCount && z.sv.finishCount == y.sv.finishCount
    requires z.sv.running == y.sv.running - 1
    requires i !in y.sv.execQueue && c !in y.sv.execQueue
    ensures (Sound(y) ==> Sound(z)) && (Tidy(y) ==> Tidy(z))
  {
    assert Engaged(z) == Engaged(y);
    assert LiveExecs(z.sv) == LiveExecs(y.sv) - {i} && i in LiveExecs(y.sv);
    forall d | 0 <= d < |z.conns| && FateAt(y, d) ensures FateAt(z, d) {
      assert JobAgrees(y, d);
    }
  }

  /** An unfinished job and its executor's pairing name each other. */
  predicate JobAgrees(y: Sys, d: nat)
    requires Sizes(y) && d < |y.conns|
  {
    y.conns[d].job.Some? ==>
      && y.conns[d].job.value.exec < |y.conns|
      && (y.conns[d].job.value.stop.None? <==> y.sv.remotes[y.conns[d].job.value.exec].paired == Some(d))
  }

  predicate JobsAgree(y: Sys)
    requires Sizes(y)
  {
    forall d :: 0 <= d < |y.conns| ==> JobAgrees(y, d)
  }

  lemma JobsDoAgree(y: Sys)
    requires Inv(y)
    ensures JobsAgree(y)
  {
    forall d | 0 <= d < |y.conns| ensures JobAgrees(y, d) {
      assert JobAt(y, d);
    }
  }

  lemma QuietAccounts(y: Sys, z: Sys, i: nat)
    requires TwoDiffer(y, z, i, i) && i < |y.conns| && JobsAgree(y)
    requires z.conns[i] == y.conns[i].(done := y.conns[i].done + 1)
    requires z.sv.remotes[i] == y.sv.remotes[i].(connType := Dead)
    requires y.sv.remotes[i].connType == Exec ==> y.sv.remotes[i].paired.None?
    requires z.sv.taskQueue == y.sv.taskQueue && z.sv.execQueue == y.sv.execQueue
    requires z.sv.submitCount == y.sv.submitCount && z.sv.finishCount == y.sv.finishCount
    requires z.sv.running == if y.sv.remotes[i].connType == Exec then y.sv.running - 1 else y.sv.running
    ensures (Sound(y) ==> Sound(z)) && (Tidy(y) && i !in y.sv.execQueue ==> Tidy(z))
  {
    assert Engaged(z) == Engaged(y);
    assert LiveExecs(z.sv) == LiveExecs(y.sv) - {i};
    forall d | 0 <= d < |z.conns| && FateAt(y, d) ensures FateAt(z, d) {
      assert JobAgrees(y, d);
    }
  }

  /** A drop of an idle executor is the one message that can leave the books untidy. */
  lemma DropAccounts(y: Sys, i: nat, now: Nanos)
    requires Arrives(y, i, Dropped) && Register(y.sv, i, Dropped, now).verdict == Ok
    ensures var z := RegisterSys(y, i, Dropped, now);
      && Sizes(z) && (Sound(y) ==> Sound(z))
      && (Tidy(y) && i !in y.sv.execQueue ==> Tidy(z))
  {
    var z := RegisterSys(y, i, Dropped, now);
    JobsDoAgree(y);
    WaitingAreExecs(y);
    if y.sv.remotes[i].connType == Exec && y.sv.remotes[i].paired.Some? {
      var c := DropFacts(y, i);
      assert LocalAt(y, c);
      assert Broken(y, z, i, c);
      BrokenAccounts(y, z, i, c);
    } else {
      QuietDropShape(y, i, now);
      QuietAccounts(y, z, i);
    }
  }

  // ---------- queues ----------

  lemma MatchedFates(y: Sys, z: Sys, t: Ticket, e: nat)
    requires Matched(y, z, t, e) && LocalAt(y, e) && JobsAgree(y)
    requires forall d :: 0 <= d < |y.conns| ==> FateAt(y, d)
    ensures forall d :: 0 <= d < |z.conns| ==> FateAt(z, d)
  {
    forall d | 0 <= d < |z.conns| ensures FateAt(z, d) {
      assert FateAt(y, d) && JobAgrees(y, d);
    }
  }

  lemma MatchedConserves(y: Sys, z: Sys, t: Ticket, e: nat)
    requires Matched(y, z, t, e) && Conserved(y)
    requires z.sv.submitCount == y.sv.submitCount && z.sv.finishCount == y.sv.finishCount
    ensures Conserved(z)
  {
    assert z.sv.taskQueue.Keys == y.sv.taskQueue.Keys - {t};
    assert Engaged(z) == Engaged(y) + {e} && e !in Engaged(y);
  }

  lemma MatchedTidy(y: Sys, z: Sys, t: Ticket, e: nat)
    requires Matched(y, z, t, e) && Tidy(y) && z.sv.running == y.sv.running
    ensures Tidy(z)
  {
    assert LiveExecs(z.sv) == LiveExecs(y.sv);
    forall a | 0 <= a < |z.sv.execQueue| ensures z.sv.remotes[z.sv.execQueue[a]].connType == Exec {
      assert z.sv.execQueue[a] == y.sv.execQueue[a + 1];
    }
  }

  lemma MatchAccounts(y: Sys, t: Ticket)
    requires Inv(y) && t in y.sv.taskQueue && y.sv.execQueue != [] && AssignOne(y.sv, t).verdict == Ok
    ensures var z := AssignOneSys(y, t);
      Sizes(z) && (Sound(y) ==> Sound(z)) && (Tidy(y) ==> Tidy(z))
  {
    MatchFacts(y, t);
    JobsDoAgree(y);
    assert LocalAt(y, y.sv.execQueue[0]);
    if Sound(y) {
      MatchedFates(y, AssignOneSys(y, t), t, y.sv.execQueue[0]);
      MatchedConserves(y, AssignOneSys(y, t), t, y.sv.execQueue[0]);
    }
    if Tidy(y) {
      MatchedTidy(y, AssignOneSys(y, t), t, y.sv.execQueue[0]);
    }
  }

  lemma FreeAccounts(y: Sys, z: Sys)
    requires Inv(y) && y.sv.execQueue != [] && z.conns == y.conns
    requires ReleaseOne(y.sv).verdict == Ok && z.sv == ReleaseOne(y.sv).state
    ensures Sizes(z) && (Sound(y) ==> Sound(z)) && (Tidy(y) ==> Tidy(z))
  {
    var e := y.sv.execQueue[0];
    assert WaitingOK(y, e);
    assert Freed(y, z, e);
    assert Engaged(z) == Engaged(y);
    assert LiveExecs(z.sv) == LiveExecs(y.sv) - {e};
    if Tidy(y) {
      assert e in LiveExecs(y.sv);
      forall a | 0 <= a < |z.sv.execQueue| ensures z.sv.remotes[z.sv.execQueue[a]].connType == Exec {
        assert z.sv.execQueue[a] == y.sv.execQueue[a + 1] && y.sv.execQueue[a + 1] != e;
      }
    }
    JobsDoAgree(y);
    forall d | 0 <= d < |z.conns| && FateAt(y, d) ensures FateAt(z, d) {
      assert JobAgrees(y, d);
    }
  }

  /** Tidy books cannot underflow when an executor is released. */
  lemma FreeSafe(y: Sys)
    requires Inv(y) && Tidy(y) && y.sv.execQueue != []
    ensures ReleaseOne(y.sv).verdict != Underflow
  {
    assert WaitingOK(y, y.sv.execQueue[0]);
    assert y.sv.execQueue[0] in LiveExecs(y.sv);
  }

  lemma {:induction false} AssignAccounts(y: Sys, picks: seq<Ticket>)
    requires Inv(y) && ValidPicks(y.sv, picks) && Assign(y.sv, picks).verdict == Ok
    ensures var z := AssignSys(y, picks); Sizes(z) && (Sound(y) ==> Sound(z)) && (Tidy(y) ==> Tidy(z))
    decreases |picks|
  {
    if picks == [] {
    } else {
      MatchAccounts(y, picks[0]);
      MatchKeeps(y, picks[0]);
      AssignAccounts(AssignOneSys(y, picks[0]), picks[1..]);
    }
  }

  lemma {:induction false} ReleaseAccounts(y: Sys)
    requires Inv(y)
    ensures Tidy(y) ==> Release(y.sv).verdict != Underflow
    ensures Release(y.sv).verdict == Ok ==>
      var z := y.(sv := Release(y.sv).state); Sizes(z) && (Sound(y) ==> Sound(z)) && (Tidy(y) ==> Tidy(z))
    decreases |y.sv.execQueue|
  {
    if y.sv.execQueue == [] {
    } else {
      if Tidy(y) {
        FreeSafe(y);
      }
      if ReleaseOne(y.sv).verdict == Ok {
        var z := y.(sv := ReleaseOne(y.sv).state);
        FreeAccounts(y, z);
        FreeKeeps(y, z);
        ReleaseAccounts(z);
      }
    }
  }

  /** The accounts do not look at the pending counters or the clocks. */
  lemma AccountsFrame(y: Sys, z: Sys)
    requires Sizes(y) && z.conns == y.conns
    requires z.sv == y.sv.(pending := z.sv.pending, secondPending := z.sv.secondPending,
                           lastActivity := z.sv.lastActivity)
    ensures Sizes(z) && (Sound(y) <==> Sound(z)) && (Tidy(y) <==> Tidy(z))
  {
    assert Engaged(z) == Engaged(y);
    assert LiveExecs(z.sv) == LiveExecs(y.sv);
    assert forall c :: 0 <= c < |y.conns| ==> (FateAt(y, c) <==> FateAt(z, c));
  }

  /** The books of `z` are in order if those of `y` were. */
  predicate InOrder(y: Sys, z: Sys)
    requires Sizes(y)
  {
    Sizes(z) && (Sound(y) ==> Sound(z)) && (Tidy(y) ==> Tidy(z))
  }

  lemma ReleasedAccounts(y: Sys, z: Sys)
    requires Sizes(y) && Inv(z) && InOrder(y, z)
    ensures Tidy(y) ==> Release(z.sv).verdict != Underflow
    ensures Release(z.sv).verdict == Ok ==> InOrder(y, z.(sv := Release(z.sv).state))
  {
    ReleaseAccounts(z);
  }

  lemma CheckAccounts(y: Sys, now: Nanos, picks: seq<Ticket>)
    requires Inv(y) && ValidPicks(y.sv, picks)
    ensures Tidy(y) ==> CheckQueues(y.sv, now, picks).verdict != Underflow
    ensures CheckQueues(y.sv, now, picks).verdict == Ok ==>
      InOrder(y, AssignSys(y, picks).(sv := CheckQueues(y.sv, now, picks).state))
  {
    AssignKeeps(y, picks);
    if Assign(y.sv, picks).verdict == Ok {
      var z := AssignSys(y, picks);
      AssignAccounts(y, picks);
      ReleasedAccounts(y, z);
      assert z == z.(sv := Assign(y.sv, picks).state);
    }
  }

  lemma UpdateAccounts(y: Sys, now: Nanos, picks: seq<Ticket>)
    requires Inv(y) && ValidPicks(StartExecs(y.sv), picks)
    ensures Tidy(y) ==> Update(y.sv, now, picks).verdict != Underflow
    ensures Update(y.sv, now, picks).verdict == Ok ==>
      var z := UpdateSys(y, now, picks); Sizes(z) && (Sound(y) ==> Sound(z)) && (Tidy(y) ==> Tidy(z))
  {
    var y1 := y.(sv := StartExecs(y.sv));
    StartFrame(y.sv);
    InvFrame(y, y1);
    AccountsFrame(y, y1);
    CheckAccounts(y1, now, picks);
  }

  lemma RegisterAccounts(y: Sys, i: nat, m: Message, now: Nanos)
    requires Arrives(y, i, m)
    ensures Tidy(y) ==> Register(y.sv, i, m, now).verdict != Underflow
    ensures Register(y.sv, i, m, now).verdict == Ok ==>
      var z := RegisterSys(y, i, m, now);
      && Sizes(z) && (Sound(y) ==> Sound(z))
      && (Tidy(y) && (m.Dropped? ==> i !in y.sv.execQueue) ==> Tidy(z))
  {
    RegisterSafe(y, i, m, now);
    assert LocalAt(y, i);
    NextShape(y.sv.cfg, y.sv.remotes[i], y.conns[i], m);
    if m.YourObedientServant? {
      HelloAccounts(y, i, m, now);
    } else if m.Task? {
      SubmitAccounts(y, i, m, now);
    } else if m.TaskOutput? {
      OutputAccounts(y, i, m, now);
    } else if IsTerminal(m) {
      EndAccounts(y, i, m, now);
    } else {
      if Tidy(y) && y.sv.remotes[i].connType == Exec {
        assert i in LiveExecs(y.sv);
      }
      if Register(y.sv, i, m, now).verdict == Ok {
        DropAccounts(y, i, now);
      }
    }
  }

  /** The server processes the drop of an executor that is waiting for work. */
  predicate IdleDrop(y: Sys, st: Step) {
    st.Deliver? && st.i < |y.conns| && Next(y.sv.cfg, y.conns[st.i]) == Some(Dropped) && st.i in y.sv.execQueue
  }

  lemma StepAccounts(y: Sys, st: Step)
    requires Inv(y) && Enabled(y, st)
    ensures var z := Apply(y, st);
      Sizes(z) && (Sound(y) ==> Sound(z)) && (Tidy(y) && !IdleDrop(y, st) ==> Tidy(z))
  {
    if st.Accept? {
      AcceptAccounts(y, st.peer);
    } else if st.Deliver? {
      var m := Next(y.sv.cfg, y.conns[st.i]).value;
      RegisterAccounts(y, st.i, m, st.clock.stamp);
      RegisterKeeps(y, st.i, m, st.clock.stamp);
      var z := RegisterSys(y, st.i, m, st.clock.stamp);
      if LeadsToUpdate(m) {
        UpdateAccounts(z, st.clock.check, st.picks);
      }
      AccountsFrame(HandleSys(y, st.i, m, st.clock, st.picks), Apply(y, st));
    } else if st.Watchdog? {
      UpdateAccounts(y, st.now, st.picks);
    } else {
      OutsideAccounts(y, st);
    }
  }

  ghost predicate IdleDropFree(y: Sys, steps: seq<Step>)
    requires Run(y, steps)
    decreases |steps|
  {
    steps == [] || (!IdleDrop(y, steps[0]) && IdleDropFree(Apply(y, steps[0]), steps[1..]))
  }

  lemma {:induction false} RunAccounts(y: Sys, steps: seq<Step>)
    requires Inv(y) && Run(y, steps) && Sound(y)
    ensures Inv(After(y, steps)) && Sound(After(y, steps))
    ensures Tidy(y) && IdleDropFree(y, steps) ==> Tidy(After(y, steps))
    decreases |steps|
  {
    if steps == [] {
    } else {
      StepKeeps(y, steps[0]);
      StepAccounts(y, steps[0]);
      RunAccounts(Apply(y, steps[0]), steps[1..]);
    }
  }

  lemma InitialAccounts(y: Sys)
    requires Initial(y)
    ensures Inv(y) && Sound(y) && Tidy(y)
  {
    InitialInv(y);
    assert Engaged(y) == {};
    assert LiveExecs(y.sv) == {};
  }

  // ---------- exactly when a release keeps the executor count right ----------

  /** Waiting executors, from position `a` on, whose drop was already processed. */
  function DeadWaiting(s: State, a: nat): nat
    requires a <= |s.execQueue|
    decreases |s.execQueue| - a
  {
    if a == |s.execQueue| then 0
    else DeadWaiting(s, a + 1)
         + (if s.execQueue[a] < |s.remotes| && s.remotes[s.execQueue[a]].connType != Exec then 1 else 0)
  }

  predicate QueueProper(s: State) {
    && (forall a :: 0 <= a < |s.execQueue| ==> s.execQueue[a] < |s.remotes|)
    && (forall a, b :: 0 <= a < b < |s.execQueue| ==> s.execQueue[a] != s.execQueue[b])
  }

  lemma InvProper(y: Sys)
    requires Inv(y)
    ensures QueueProper(y.sv)
  {
    forall a | 0 <= a < |y.sv.execQueue| ensures y.sv.execQueue[a] < |y.sv.remotes| {
      assert WaitingOK(y, y.sv.execQueue[a]);
    }
  }

  lemma {:induction false} DeadWaitingTail(s: State, s': State, a: nat)
    requires QueueProper(s) && s.execQueue != [] && a < |s.execQueue| && |s'.remotes| == |s.remotes|
    requires s'.execQueue == s.execQueue[1..]
    requires forall j :: 0 <= j < |s.remotes| && j != s.execQueue[0] ==> s'.remotes[j].connType == s.remotes[j].connType
    ensures DeadWaiting(s', a) == DeadWaiting(s, a + 1)
    decreases |s.execQueue| - a
  {
    if a == |s'.execQueue| {
    } else {
      DeadWaitingTail(s, s', a + 1);
      assert s'.execQueue[a] == s.execQueue[a + 1];
    }
  }

  lemma ReleaseOneDrift(s: State)
    requires QueueProper(s) && s.execQueue != [] && ReleaseOne(s).verdict == Ok
    ensures var s' := ReleaseOne(s).state;
      && QueueProper(s') && |s'.execQueue| < |s.execQueue|
      && |LiveExecs(s')| - s'.running + DeadWaiting(s', 0) == |LiveExecs(s)| - s.running + DeadWaiting(s, 0)
  {
    var e, s1 := s.execQueue[0], ReleaseOne(s).state;
    assert LiveExecs(s1) == LiveExecs(s) - {e};
    assert e in LiveExecs(s) <==> s.remotes[e].connType == Exec;
    forall a, b | 0 <= a < b < |s1.execQueue| ensures s1.execQueue[a] != s1.execQueue[b] {
      assert s1.execQueue[a] == s.execQueue[a + 1] && s1.execQueue[b] == s.execQueue[b + 1];
    }
    DeadWaitingTail(s, s1, 0);
  }

  /** Releasing moves the counter away from the table by one for each dead executor in the queue. */
  lemma {:induction false} ReleaseDrift(s: State)
    requires QueueProper(s) && Release(s).verdict == Ok
    ensures var s' := Release(s).state;
      |LiveExecs(s')| - s'.running == |LiveExecs(s)| - s.running + DeadWaiting(s, 0)
    decreases |s.execQueue|
  {
    if s.execQueue == [] {
    } else {
      ReleaseOneDrift(s);
      ReleaseDrift(ReleaseOne(s).state);
    }
  }

  lemma {:induction false} NoneDead(s: State, a: nat)
    requires QueueProper(s) && a <= |s.execQueue|
    ensures DeadWaiting(s, a) == 0
       <==> forall b :: a <= b < |s.execQueue| ==> s.remotes[s.execQueue[b]].connType == Exec
    decreases |s.execQueue| - a
  {
    if a == |s.execQueue| {
    } else {
      NoneDead(s, a + 1);
    }
  }
}
