/**
  The server's state object: the fields of the source's `ServerState` and its methods, loops included,
  each proved to do exactly what the function of the same purpose in `Scheduler` says.
 */
module ServerObject {
  import opened Messages
  import opened Scheduler

  class ServerState {
    const cfg: Config
    var remotes: seq<Remote>
    var taskQueue: map<Ticket, Nanos>
    var execQueue: seq<nat>
    var submitCount: nat
    var finishCount: nat
    var pending: nat
    var secondPending: nat
    var running: nat
    var lastSubmit: Option<Nanos>
    var lastActivity: Nanos
    var making: map<string, (Nanos, Nanos)>

    ghost function View(): State
      reads this
    {
      State(cfg, remotes, taskQueue, execQueue, submitCount, finishCount, pending, secondPending,
            running, lastSubmit, lastActivity, making)
    }

    constructor (cfg: Config, now: Nanos)
      ensures View() == InitialState(cfg, now)
    {
      this.cfg := cfg;
      remotes, taskQueue, execQueue := [], map[], [];
      submitCount, finishCount, pending, secondPending, running := 0, 0, 0, 0, 0;
      lastSubmit, lastActivity, making := None, now, map[];
    }

    method AddRemote() returns (id: nat)
      modifies this
      ensures id == old(|remotes|)
      ensures View() == Scheduler.AddRemote(old(View()))
    {
      remotes := remotes + [Remote(Pending, Channel(true, []), None)];
      id := |remotes| - 1;
    }

    /** Returns false if the receiver is gone. */
    method Send(i: nat, m: Message) returns (sent: bool)
      requires i < |remotes|
      modifies this`remotes
      ensures sent == old(remotes[i].chan.open)
      ensures remotes == if sent then old(remotes)[i := Put(old(remotes[i]), m)] else old(remotes)
    {
      sent := remotes[i].chan.open;
      if sent {
        remotes := remotes[i := Put(remotes[i], m)];
      }
    }

    method SendToPairedRemote(i: nat, m: Message) returns (verdict: Verdict)
      requires i < |remotes|
      modifies this
      ensures Outcome(View(), verdict) == SendToPaired(old(View()), i, m)
    {
      if remotes[i].paired.None? || remotes[i].paired.value >= |remotes| {
        return AssertFailed;
      }
      var other := remotes[i].paired.value;
      if remotes[other].connType == Client {
        var sent := Send(other, m);
        if !sent {
          remotes := remotes[other := remotes[other].(connType := Dead)];
        }
      }
      return Ok;
    }

    method HandleDropped(i: nat) returns (verdict: Verdict)
      requires i < |remotes|
      modifies this
      ensures Outcome(View(), verdict) == Scheduler.HandleDropped(old(View()), i)
    {
      var wasExec := remotes[i].connType == Exec;
      if wasExec && remotes[i].paired.Some? {
        var other := remotes[i].paired.value;
        if other >= |remotes| {
          return AssertFailed;
        }
        var sent := Send(other, DROP_NOTICE);
        if !sent {
          return SendError;
        }
      }
      if wasExec {
        if running == 0 {
          return Underflow;
        }
        running := running - 1;
      }
      remotes := remotes[i := remotes[i].(connType := Dead)];
      return Ok;
    }

    /** `failures` scripts which spawn attempts fail; attempts after its end succeed. A failed attempt
        changes nothing, so the result does not depend on the script. */
    method StartExecsInQueue(alt: bool, keep: nat, failures: seq<bool>)
      modifies this`pending, this`secondPending
      ensures View() == Launch(old(View()), alt, keep)
    {
      var attempt: nat := 0;
      while running + pending + secondPending < |taskQueue|
            && running + pending + secondPending < cfg.maxCount
            && (if alt then secondPending else pending) < keep
        invariant attempt <= |failures|
        invariant Launch(View(), alt, keep) == Launch(old(View()), alt, keep)
        decreases |failures| - attempt, keep - (if alt then secondPending else pending)
      {
        if attempt < |failures| && failures[attempt] {
          attempt := attempt + 1;
        } else {
          assert LaunchGuard(View(), alt, keep);
          ghost var before := View();
          if alt {
            secondPending := secondPending + 1;
          } else {
            pending := pending + 1;
          }
          assert View() == LaunchOne(before, alt);
          attempt := if attempt < |failures| then attempt + 1 else attempt;
        }
      }
      assert !LaunchGuard(View(), alt, keep);
    }

    method StartExecs(failures: seq<bool>)
      modifies this`pending, this`secondPending
      ensures View() == Scheduler.StartExecs(old(View()))
    {
      if |taskQueue| == 0 {
        return;
      }
      var initNeeded := Max(cfg.initialCount, running) - running;
      var keep := Max(cfg.keepPending, initNeeded);
      if cfg.bothQueues {
        var half := (keep + 1) / 2;
        StartExecsInQueue(false, half, failures);
        StartExecsInQueue(true, half, failures);
      } else {
        StartExecsInQueue(false, keep, failures);
      }
    }

    /** One turn of the matching loop; `t` is the ticket it popped. */
    method MatchNext() returns (t: Ticket, verdict: Verdict)
      requires BothWaiting(View())
      modifies this
      ensures Top(old(taskQueue), t)
      ensures Outcome(View(), verdict) == AssignOne(old(View()), t)
    {
      MaximumExists(taskQueue);
      t :| Top(taskQueue, t);
      taskQueue := taskQueue - {t};
      var c, e := t.client, execQueue[0];
      execQueue := execQueue[1..];
      if c == e || c >= |remotes| || e >= |remotes| || remotes[c].paired.Some? {
        return t, AssertFailed;
      }
      remotes := remotes[c := remotes[c].(paired := Some(e % U32))];
      if remotes[e].paired.Some? {
        return t, AssertFailed;
      }
      remotes := remotes[e := remotes[e].(paired := Some(c % U32))];
      var sent := Send(e, Task(0, 0, t.details));
      return t, if sent then Ok else SendError;
    }

    method ReleaseNext() returns (verdict: Verdict)
      requires execQueue != []
      modifies this
      ensures Outcome(View(), verdict) == ReleaseOne(old(View()))
    {
      var e := execQueue[0];
      execQueue := execQueue[1..];
      if e >= |remotes| {
        return AssertFailed;
      }
      remotes := remotes[e := remotes[e].(connType := Dead)];
      var sent := Send(e, PissOff);
      if !sent {
        return SendError;
      }
      if running == 0 {
        return Underflow;
      }
      running := running - 1;
      return Ok;
    }

    /** The matching loop: while a task and an executor both wait, bring them together. */
    method MatchAll() returns (verdict: Verdict, picks: seq<Ticket>)
      modifies this
      ensures ValidPicks(old(View()), picks)
      ensures Outcome(View(), verdict) == Assign(old(View()), picks)
    {
      picks := [];
      verdict := Ok;
      ghost var start := View();
      ghost var trail := [start];
      while taskQueue != map[] && execQueue != []
        invariant verdict == Ok
        invariant Trail(start, picks, trail) && trail[|picks|] == View()
        decreases |taskQueue|
      {
        ghost var before := View();
        var t;
        t, verdict := MatchNext();
        QueueShrinks(before.taskQueue, t, taskQueue);
        if verdict != Ok {
          TrailStops(start, picks, trail, t);
          picks := picks + [t];
          return;
        }
        assert Turn(before, t, View());
        picks := picks + [t];
        trail := trail + [View()];
      }
      TrailEnds(start, picks, trail);
    }

    /** The release loop: send every waiting executor away. */
    method ReleaseIdle() returns (verdict: Verdict)
      modifies this
      ensures Outcome(View(), verdict) == Release(old(View()))
    {
      verdict := Ok;
      while execQueue != []
        invariant verdict == Ok
        invariant Release(View()) == Release(old(View()))
        decreases |execQueue|
      {
        verdict := ReleaseNext();
        if verdict != Ok {
          return;
        }
      }
    }

    method CheckQueues(now: Nanos) returns (verdict: Verdict, picks: seq<Ticket>)
      modifies this
      ensures ValidPicks(old(View()), picks)
      ensures Outcome(View(), verdict) == Scheduler.CheckQueues(old(View()), now, picks)
    {
      verdict, picks := MatchAll();
      if verdict == Ok && lastSubmit.Some? && Elapsed(now, lastSubmit.value) > cfg.releaseDelay {
        verdict := ReleaseIdle();
      }
    }

    method Update(now: Nanos, failures: seq<bool>) returns (verdict: Verdict, picks: seq<Ticket>)
      modifies this
      ensures ValidPicks(Scheduler.StartExecs(old(View())), picks)
      ensures Outcome(View(), verdict) == Scheduler.Update(old(View()), now, picks)
    {
      StartExecs(failures);
      verdict, picks := CheckQueues(now);
    }

    method ExecIsReady(i: nat, now: Nanos, failures: seq<bool>) returns (verdict: Verdict, picks: seq<Ticket>)
      requires i < |remotes|
      modifies this
      ensures ValidPicks(Scheduler.StartExecs(MakeReady(old(View()), i)), picks)
      ensures Outcome(View(), verdict) == Scheduler.Update(MakeReady(old(View()), i), now, picks)
    {
      execQueue := execQueue + [i];
      remotes := remotes[i := remotes[i].(paired := None)];
      verdict, picks := Update(now, failures);
    }

    method Enqueue(i: nat, d: TaskDetails, now: Nanos)
      requires i < |remotes| && OutputArgsInRange(d)
      modifies this
      ensures View() == EnqueueTask(old(View()), i, d, now)
    {
      var bump := if d.priorityTask then 300 * SECOND else 0;
      var id := TargetId(d);
      var prior := (if id in cfg.prior then cfg.prior[id] else SECOND) + bump;
      remotes := remotes[i := remotes[i].(connType := Client)];
      taskQueue := taskQueue[Ticket(i, d) := prior];
      lastSubmit := Some(now);
    }

    /** Computing the id of a task with an output position out of range panics, before anything changes. */
    method RemoteIsClient(i: nat, d: TaskDetails, clock: Clock, failures: seq<bool>)
      returns (verdict: Verdict, picks: seq<Ticket>)
      requires i < |remotes|
      modifies this
      ensures !OutputArgsInRange(d) ==> verdict == AssertFailed && picks == [] && View() == old(View())
      ensures OutputArgsInRange(d) ==>
        && ValidPicks(Scheduler.StartExecs(EnqueueTask(old(View()), i, d, clock.stamp)), picks)
        && Outcome(View(), verdict)
           == Scheduler.Update(EnqueueTask(old(View()), i, d, clock.stamp), clock.check, picks)
    {
      if !OutputArgsInRange(d) {
        return AssertFailed, [];
      }
      Enqueue(i, d, clock.stamp);
      verdict, picks := Update(clock.check, failures);
    }

    method RemoteIsExec(i: nat, second: bool, now: Nanos, failures: seq<bool>)
      returns (verdict: Verdict, picks: seq<Ticket>)
      requires i < |remotes|
      modifies this
      ensures ValidPicks(Scheduler.StartExecs(EnrolExec(old(View()), i, second)), picks)
      ensures Outcome(View(), verdict) == Scheduler.Update(EnrolExec(old(View()), i, second), now, picks)
    {
      remotes := remotes[i := remotes[i].(connType := Exec)];
      running := running + 1;
      if !second && pending > 0 {
        pending := pending - 1;
      } else if second && secondPending > 0 {
        secondPending := secondPending - 1;
      }
      assert MakeReady(View(), i) == EnrolExec(old(View()), i, second);
      verdict, picks := ExecIsReady(i, now, failures);
    }

    method RelayEnd(i: nat, m: Message, now: Nanos) returns (verdict: Verdict)
      requires i < |remotes| && IsTerminal(m)
      modifies this
      ensures Outcome(View(), verdict) == RelayTerminal(old(View()), i, m, now)
      ensures |remotes| == old(|remotes|)
    {
      if m.TaskDone? && m.exitCode == Some(0) {
        making := making[m.targetId := (m.runTime, now)];
      }
      verdict := SendToPairedRemote(i, m);
    }

    method TaskEnded(i: nat, m: Message, clock: Clock, failures: seq<bool>)
      returns (verdict: Verdict, picks: seq<Ticket>)
      requires i < |remotes| && IsTerminal(m)
      modifies this
      ensures PicksFor(old(View()), i, m, clock, picks)
      ensures Outcome(View(), verdict) == Scheduler.HandleMsg(old(View()), i, m, clock, picks)
    {
      picks := [];
      verdict := RelayEnd(i, m, clock.stamp);
      if verdict == Ok {
        finishCount := finishCount + 1;
        verdict, picks := ExecIsReady(i, clock.check, failures);
      }
    }

    method TaskArrived(i: nat, m: Message, clock: Clock, failures: seq<bool>)
      returns (verdict: Verdict, picks: seq<Ticket>)
      requires i < |remotes| && m.Task?
      modifies this
      ensures PicksFor(old(View()), i, m, clock, picks)
      ensures Outcome(View(), verdict) == Scheduler.HandleMsg(old(View()), i, m, clock, picks)
    {
      submitCount := submitCount + 1;
      verdict, picks := RemoteIsClient(i, m.details, clock, failures);
    }

    method HandleMsg(i: nat, m: Message, clock: Clock, failures: seq<bool>)
      returns (verdict: Verdict, picks: seq<Ticket>)
      requires i < |remotes|
      modifies this
      ensures PicksFor(old(View()), i, m, clock, picks)
      ensures Outcome(View(), verdict) == Scheduler.HandleMsg(old(View()), i, m, clock, picks)
    {
      picks := [];
      match m
      case YourObedientServant(code, _) =>
        verdict, picks := RemoteIsExec(i, code % 2 != 0, clock.check, failures);
      case Task(_, _, _) =>
        verdict, picks := TaskArrived(i, m, clock, failures);
      case TaskOutput(_, _) =>
        verdict := SendToPairedRemote(i, m);
      case TaskDone(_, _, _, _) =>
        verdict, picks := TaskEnded(i, m, clock, failures);
      case TaskFailed(_) =>
        verdict, picks := TaskEnded(i, m, clock, failures);
      case CancelTask =>
        verdict := AssertFailed;
      case PissOff =>
        verdict := AssertFailed;
      case Dropped =>
        verdict := HandleDropped(i);
    }

    method OkToShutdown(now: Nanos) returns (ok: bool)
      ensures ok <==> Scheduler.OkToShutdown(View(), now)
      ensures ok <==> taskQueue == map[] && running == 0
                      && now >= lastActivity + (cfg.idleShutdownAfter + 1) * 1_000_000_000
    {
      ok := taskQueue == map[] && running == 0 && Elapsed(now, lastActivity) > cfg.idleShutdownAfter;
    }
  }

  /** A non-empty queue has an entry of greatest priority. */
  lemma {:induction false} MaximumExists(q: map<Ticket, Nanos>)
    requires q != map[]
    ensures exists t :: Top(q, t)
    decreases |q|
  {
    var t :| t in q;
    var rest := q - {t};
    if rest == map[] {
      assert forall u :: u in q ==> u in rest || u == t;
      assert Top(q, t);
    } else {
      assert q.Keys == rest.Keys + {t};
      MaximumExists(rest);
      var b :| Top(rest, b);
      var best := if q[t] <= rest[b] then b else t;
      forall u | u in q ensures q[u] <= q[best] {
        if u != t {
          assert u in rest;
        }
      }
      assert Top(q, best);
    }
  }

  lemma QueueShrinks(q: map<Ticket, Nanos>, t: Ticket, q': map<Ticket, Nanos>)
    requires t in q && q' == q - {t}
    ensures |q'| == |q| - 1
  {
    assert q'.Keys == q.Keys - {t};
  }

  /** `trail` lists the states the matching loop passed through while popping `picks`. */
  ghost predicate Trail(start: State, picks: seq<Ticket>, trail: seq<State>) {
    && |trail| == |picks| + 1
    && trail[0] == start
    && forall k :: 0 <= k < |picks| ==> Turn(trail[k], picks[k], trail[k + 1])
  }

  ghost predicate Turn(s: State, t: Ticket, s': State) {
    BothWaiting(s) && Top(s.taskQueue, t) && AssignOne(s, t) == Outcome(s', Ok)
  }

  lemma {:induction false} TrailEnds(start: State, picks: seq<Ticket>, trail: seq<State>)
    requires Trail(start, picks, trail) && !BothWaiting(trail[|picks|])
    ensures ValidPicks(start, picks) && Assign(start, picks) == Outcome(trail[|picks|], Ok)
    decreases |picks|
  {
    if picks == [] {
    } else {
      assert Turn(trail[0], picks[0], trail[1]);
      var p, w := picks[1..], trail[1..];
      forall k | 0 <= k < |p| ensures Turn(w[k], p[k], w[k + 1]) {
        assert Turn(trail[k + 1], picks[k + 1], trail[k + 2]);
      }
      TrailEnds(trail[1], p, w);
    }
  }

  lemma {:induction false} TrailStops(start: State, picks: seq<Ticket>, trail: seq<State>, t: Ticket)
    requires Trail(start, picks, trail)
    requires BothWaiting(trail[|picks|]) && Top(trail[|picks|].taskQueue, t)
    requires AssignOne(trail[|picks|], t).verdict != Ok
    ensures ValidPicks(start, picks + [t])
    ensures Assign(start, picks + [t]) == AssignOne(trail[|picks|], t)
    decreases |picks|
  {
    var all := picks + [t];
    if picks == [] {
    } else {
      assert Turn(trail[0], picks[0], trail[1]);
      var p, w := picks[1..], trail[1..];
      forall k | 0 <= k < |p| ensures Turn(w[k], p[k], w[k + 1]) {
        assert Turn(trail[k + 1], picks[k + 1], trail[k + 2]);
      }
      TrailStops(trail[1], p, w, t);
      assert all[1..] == p + [t];
    }
  }
}
