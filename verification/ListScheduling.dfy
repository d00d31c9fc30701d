/**
  How long a batch takes. A crew of executors is connected, all tasks have been submitted, nothing drops and
  nothing new arrives; each task keeps its executor busy for a fixed time. Time passes in ticks; when an
  executor's task is done its terminal message is handled by the server as in `Scheduler`, and so are the output
  it sends before and the watchdog's updates. Because the server never leaves an executor idle while a task is
  queued, list scheduling's classical bound holds.
 */
module ListScheduling {
  import opened Messages
  import opened Scheduler
  import opened Composition
  import opened Invariant
  import opened Runs
  import opened Accounts
  import opened Guarantees
  import opened Matching

  /** The server, the time, and how long each crew member still needs for its task. */
  datatype Shop = Shop(s: State, now: nat, left: seq<nat>)

  /** Time passes; a crew member finishes its task; one sends output; the watchdog fires. */
  datatype Move =
    | Tick(dt: nat)
    | Finish(j: nat, msg: Message, clock: Clock, picks: seq<Ticket>)
    | Output(j: nat, msg: Message, clock: Clock)
    | Watch(at: Nanos, picks: seq<Ticket>)

  /** The batch: the crew's connection ids, the tasks, and how long each takes. */
  datatype Batch = Batch(crew: seq<nat>, tasks: seq<Ticket>, time: map<Ticket, nat>) {
    predicate Proper() {
      && crew != [] && (forall a, b :: 0 <= a < b < |crew| ==> crew[a] != crew[b])
      && (forall a, b :: 0 <= a < b < |tasks| ==> tasks[a] != tasks[b])
      && (forall a :: 0 <= a < |tasks| ==> tasks[a] in time)
    }

    function Time(t: Ticket): nat { if t in time then time[t] else 0 }
  }

  function Sum(xs: seq<nat>): nat {
    if xs == [] then 0 else xs[0] + Sum(xs[1..])
  }

  lemma {:induction false} SumUpdate(xs: seq<nat>, j: nat, x: nat)
    requires j < |xs|
    ensures Sum(xs[j := x]) == Sum(xs) - xs[j] + x
    ensures xs[j] <= Sum(xs)
  {
    if j > 0 {
      SumUpdate(xs[1..], j - 1, x);
      assert xs[j := x][1..] == xs[1..][j - 1 := x];
    } else {
      assert xs[j := x][1..] == xs[1..];
    }
  }

  /** The work `m` executors do in time `t`: m * t, defined by addition to keep the proofs linear. */
  function Work(m: nat, t: nat): nat {
    if m == 0 then 0 else t + Work(m - 1, t)
  }

  lemma {:induction false} WorkIsProduct(m: nat, t: nat)
    ensures Work(m, t) == m * t
  {
    if m == 0 {
    } else {
      WorkIsProduct(m - 1, t);
      assert m * t == (m - 1) * t + t;
    }
  }

  lemma {:induction false} WorkAdds(m: nat, t: nat, u: nat)
    ensures Work(m, t + u) == Work(m, t) + Work(m, u)
  {
    if m == 0 {
    } else {
      WorkAdds(m - 1, t, u);
    }
  }

  lemma {:induction false} WorkGrows(m: nat, t: nat, u: nat)
    requires t <= u
    ensures Work(m, t) <= Work(m, u)
  {
    if m == 0 {
    } else {
      WorkGrows(m - 1, t, u);
    }
  }

  lemma {:induction false} SumTick(xs: seq<nat>, ys: seq<nat>, dt: nat)
    requires |ys| == |xs| && forall j :: 0 <= j < |xs| ==> xs[j] == ys[j] + dt
    ensures Sum(xs) == Sum(ys) + Work(|xs|, dt)
  {
    if xs == [] {
    } else {
      SumTick(xs[1..], ys[1..], dt);
    }
  }

  /** The time the tasks of the list that are still in `q` will take. */
  function Queued(b: Batch, tasks: seq<Ticket>, q: set<Ticket>): nat {
    if tasks == [] then 0 else (if tasks[0] in q then b.Time(tasks[0]) else 0) + Queued(b, tasks[1..], q)
  }

  lemma {:induction false} QueuedRemove(b: Batch, tasks: seq<Ticket>, q: set<Ticket>, t: Ticket)
    requires t in q && (forall a, c :: 0 <= a < c < |tasks| ==> tasks[a] != tasks[c])
    ensures Queued(b, tasks, q) == Queued(b, tasks, q - {t}) + (if t in tasks then b.Time(t) else 0)
  {
    if tasks == [] {
    } else {
      QueuedRemove(b, tasks[1..], q, t);
      assert t in tasks <==> t == tasks[0] || t in tasks[1..];
      assert t == tasks[0] ==> t !in tasks[1..];
    }
  }

  lemma {:induction false} QueuedNone(b: Batch, tasks: seq<Ticket>)
    ensures Queued(b, tasks, {}) == 0
  {
    if tasks == [] {
    } else {
      QueuedNone(b, tasks[1..]);
    }
  }

  // ---------- the shop floor ----------

  predicate Busy(b: Batch, s: State, j: nat)
    requires j < |b.crew|
  {
    b.crew[j] < |s.remotes| && s.remotes[b.crew[j]].paired.Some?
  }

  predicate AllBusy(b: Batch, s: State) {
    forall j :: 0 <= j < |b.crew| ==> Busy(b, s, j)
  }

  /** The queues hold only tasks of the batch and members of the crew. */
  predicate Staffed(b: Batch, s: State) {
    && b.Proper() && WorkConserving(s) && |s.remotes| <= U32
    && (forall j :: 0 <= j < |b.crew| ==> b.crew[j] < |s.remotes|)
    && (forall t :: t in s.taskQueue ==> t in b.tasks && t.client !in b.crew)
    && (forall a :: 0 <= a < |s.execQueue| ==> s.execQueue[a] in b.crew)
    && (s.taskQueue != map[] ==> AllBusy(b, s))
  }

  /** Any state the server can be in, short of an idle drop, will do: let the crew be all executors connected and the
      list include all tasks queued. */
  lemma ReachableIsStaffed(y: Sys, steps: seq<Step>, b: Batch)
    requires Initial(y) && Run(y, steps) && IdleDropFree(y, steps) && b.Proper()
    requires forall e :: e in b.crew <==> e in LiveExecs(After(y, steps).sv)
    requires forall t :: t in After(y, steps).sv.taskQueue ==> t in b.tasks
    ensures Staffed(b, After(y, steps).sv)
  {
    Reached(y, steps);
    NeverIdleWhileQueued(y, steps);
    var z := After(y, steps);
    forall j | 0 <= j < |b.crew|
      ensures b.crew[j] < |z.sv.remotes| && (z.sv.execQueue == [] ==> Busy(b, z.sv, j))
    {
      assert b.crew[j] in LiveExecs(z.sv);
      assert IdleAt(z, b.crew[j]);
    }
    forall t | t in z.sv.taskQueue ensures t.client !in b.crew {
      assert QueuedOK(z, t) && LocalAt(z, t.client);
    }
    forall a | 0 <= a < |z.sv.execQueue| ensures z.sv.execQueue[a] in b.crew {
      assert z.sv.execQueue[a] in LiveExecs(z.sv);
    }
  }

  predicate Possible(b: Batch, h: Shop, mv: Move)
    requires |h.left| == |b.crew|
  {
    match mv
    case Tick(dt) => forall j :: 0 <= j < |b.crew| && Busy(b, h.s, j) ==> dt <= h.left[j]
    case Finish(j, msg, clock, picks) =>
      && j < |b.crew| && Busy(b, h.s, j) && h.left[j] == 0 && IsTerminal(msg)
      && PicksFor(h.s, b.crew[j], msg, clock, picks)
      && HandleMsg(h.s, b.crew[j], msg, clock, picks).verdict == Ok
    case Output(j, msg, clock) =>
      && j < |b.crew| && Busy(b, h.s, j) && msg.TaskOutput?
      && HandleMsg(h.s, b.crew[j], msg, clock, []).verdict == Ok
    case Watch(at, picks) => ValidPicks(StartExecs(h.s), picks) && Update(h.s, at, picks).verdict == Ok
  }

  function Do(b: Batch, h: Shop, mv: Move): Shop
    requires |h.left| == |b.crew| && Possible(b, h, mv)
  {
    match mv
    case Tick(dt) =>
      h.(now := h.now + dt,
         left := seq(|b.crew|, j requires 0 <= j < |b.crew| => if Busy(b, h.s, j) then h.left[j] - dt else h.left[j]))
    case Finish(j, msg, clock, picks) =>
      h.(s := HandleMsg(h.s, b.crew[j], msg, clock, picks).state,
         left := h.left[j := if picks == [] then 0 else b.Time(picks[0])])
    case Output(j, msg, clock) => h.(s := HandleMsg(h.s, b.crew[j], msg, clock, []).state)
    case Watch(at, picks) => h.(s := Update(h.s, at, picks).state)
  }

  // ---------- what the server does when a task ends ----------

  lemma FinishRegister(s: State, e: nat, msg: Message, now: Nanos)
    requires e < |s.remotes| && s.remotes[e].paired.Some? && IsTerminal(msg) && Register(s, e, msg, now).verdict == Ok
    ensures var s' := Register(s, e, msg, now).state;
      && |s'.remotes| == |s.remotes| && s'.taskQueue == s.taskQueue && s'.execQueue == s.execQueue + [e]
      && s'.remotes[e].paired.None?
      && (forall k :: 0 <= k < |s.remotes| && k != e ==> s'.remotes[k].paired == s.remotes[k].paired)
  {
    var o := RelayTerminal(s, e, msg, now);
    assert o.verdict == Ok;
    assert forall k :: 0 <= k < |s.remotes| ==> o.state.remotes[k].paired == s.remotes[k].paired;
  }

  /** The one waiting executor takes the task of greatest priority. */
  lemma HandOver(s: State, e: nat, now: Nanos, picks: seq<Ticket>)
    requires ValidPicks(StartExecs(s), picks) && Update(s, now, picks).verdict == Ok
    requires s.execQueue == [e] && s.taskQueue != map[] && e < |s.remotes| <= U32
    ensures |picks| == 1 && Top(s.taskQueue, picks[0])
    ensures var s' := Update(s, now, picks).state;
      && s'.taskQueue == s.taskQueue - {picks[0]} && s'.execQueue == [] && |s'.remotes| == |s.remotes|
      && (forall k :: 0 <= k < |s.remotes| && (k == e || s.remotes[k].paired.Some?) ==> s'.remotes[k].paired.Some?)
  {
    StartFrame(s);
    UpdateQueues(s, now, picks);
    AssignSingle(StartExecs(s), picks);
    var s2 := AssignOne(StartExecs(s), picks[0]).state;
    assert s2.execQueue == [];
    assert Release(s2).state == s2;
  }

  /** With tasks queued and everybody else at work, the one who finished gets a queued task of greatest priority. */
  lemma FinishWithWork(b: Batch, s: State, j: nat, msg: Message, clock: Clock, picks: seq<Ticket>)
    requires Staffed(b, s) && j < |b.crew| && Busy(b, s, j) && IsTerminal(msg) && s.taskQueue != map[]
    requires PicksFor(s, b.crew[j], msg, clock, picks) && HandleMsg(s, b.crew[j], msg, clock, picks).verdict == Ok
    ensures var s' := HandleMsg(s, b.crew[j], msg, clock, picks).state;
      && |picks| == 1 && Top(s.taskQueue, picks[0]) && s'.taskQueue == s.taskQueue - {picks[0]}
      && Staffed(b, s') && AllBusy(b, s')
  {
    var e := b.crew[j];
    var s1 := Register(s, e, msg, clock.stamp).state;
    FinishRegister(s, e, msg, clock.stamp);
    assert s1.execQueue == [e];
    HandOver(s1, e, clock.check, picks);
    var s' := HandleMsg(s, b.crew[j], msg, clock, picks).state;
    forall k | 0 <= k < |b.crew| ensures Busy(b, s', k) {
      assert Busy(b, s, k);
    }
  }

  /** With nothing queued, the one who finished becomes idle or is dismissed. */
  lemma FinishWithoutWork(b: Batch, s: State, j: nat, msg: Message, clock: Clock, picks: seq<Ticket>)
    requires Staffed(b, s) && j < |b.crew| && Busy(b, s, j) && IsTerminal(msg) && s.taskQueue == map[]
    requires PicksFor(s, b.crew[j], msg, clock, picks) && HandleMsg(s, b.crew[j], msg, clock, picks).verdict == Ok
    ensures var s' := HandleMsg(s, b.crew[j], msg, clock, picks).state;
      && picks == [] && s'.taskQueue == map[] && Staffed(b, s')
      && forall k :: 0 <= k < |b.crew| && Busy(b, s', k) ==> k != j && Busy(b, s, k)
  {
    var e := b.crew[j];
    var s1 := Register(s, e, msg, clock.stamp).state;
    FinishRegister(s, e, msg, clock.stamp);
    StartFrame(s1);
    UpdateQueues(s1, clock.check, picks);
    ReleasePairs(StartExecs(s1));
    var s' := HandleMsg(s, e, msg, clock, picks).state;
    forall k | 0 <= k < |b.crew| && Busy(b, s', k) ensures k != j && Busy(b, s, k) {
    }
    forall a | 0 <= a < |s'.execQueue| ensures s'.execQueue[a] in b.crew {
      assert s'.execQueue == s1.execQueue;
      assert a < |s.execQueue| ==> s'.execQueue[a] == s.execQueue[a];
    }
  }

  lemma {:induction false} ReleasePairs(s: State)
    ensures |Release(s).state.remotes| == |s.remotes|
    ensures forall k :: 0 <= k < |s.remotes| ==> Release(s).state.remotes[k].paired == s.remotes[k].paired
    decreases |s.execQueue|
  {
    if s.execQueue == [] {
    } else if ReleaseOne(s).verdict == Ok {
      ReleasePairs(ReleaseOne(s).state);
    }
  }

  // ---------- what the server does meanwhile ----------

  /** The same tasks are queued, the same remotes are paired, and no executor joined the queue. */
  predicate Undisturbed(s: State, s': State) {
    && s'.taskQueue == s.taskQueue && |s'.remotes| == |s.remotes|
    && (s'.execQueue == s.execQueue || s'.execQueue == [])
    && forall k :: 0 <= k < |s.remotes| ==> s'.remotes[k].paired == s.remotes[k].paired
  }

  lemma UndisturbedStaffed(b: Batch, s: State, s': State)
    requires Staffed(b, s) && Undisturbed(s, s')
    ensures Staffed(b, s') && forall j :: 0 <= j < |b.crew| ==> (Busy(b, s', j) <==> Busy(b, s, j))
  {
    forall j | 0 <= j < |b.crew| ensures Busy(b, s', j) <==> Busy(b, s, j) {
      assert b.crew[j] < |s.remotes|;
    }
  }

  lemma OutputUndisturbed(s: State, e: nat, msg: Message, clock: Clock)
    requires e < |s.remotes| && msg.TaskOutput? && HandleMsg(s, e, msg, clock, []).verdict == Ok
    ensures Undisturbed(s, HandleMsg(s, e, msg, clock, []).state)
  {
  }

  /** With nobody idle while tasks are queued, the watchdog matches nothing, and dismisses idle executors at most. */
  lemma WatchUndisturbed(s: State, at: Nanos, picks: seq<Ticket>)
    requires WorkConserving(s) && ValidPicks(StartExecs(s), picks) && Update(s, at, picks).verdict == Ok
    ensures Undisturbed(s, Update(s, at, picks).state)
  {
    StartFrame(s);
    assert picks == [];
    var s1 := StartExecs(s);
    if ReleaseDue(s1, at) {
      ReleasePairs(s1);
      ReleaseEmpties(s1);
    }
  }

  // ---------- the bound ----------

  /** `total` is the sum of all task times, `cap` at least the longest. While tasks are queued everybody has
      worked all the time; after that, everyone still at work will be done within the bound. */
  predicate OnTime(b: Batch, h: Shop, total: nat, cap: nat) {
    var m := |b.crew|;
    && |h.left| == m && Staffed(b, h.s)
    && (forall k :: 0 <= k < |b.tasks| ==> b.Time(b.tasks[k]) <= cap)
    && (forall j :: 0 <= j < m ==> h.left[j] <= cap)
    && (if h.s.taskQueue != map[] then Work(m, h.now) + Sum(h.left) + Queued(b, b.tasks, h.s.taskQueue.Keys) == total
        else forall j :: 0 <= j < m && Busy(b, h.s, j) ==> Work(m, h.now + h.left[j]) <= total + Work(m - 1, cap))
  }

  /** When the queue runs dry, whoever works longest is done in time. */
  lemma LastStretch(m: nat, now: nat, left: seq<nat>, j: nat, total: nat, cap: nat)
    requires j < |left| == m && Work(m, now) + Sum(left) == total && left[j] <= cap
    ensures Work(m, now + left[j]) <= total + Work(m - 1, cap)
  {
    SumUpdate(left, j, left[j]);
    WorkAdds(m, now, left[j]);
    WorkGrows(m - 1, left[j], cap);
  }

  lemma TickBusy(b: Batch, h: Shop, dt: nat)
    requires |h.left| == |b.crew| && AllBusy(b, h.s) && Possible(b, h, Tick(dt))
    ensures Sum(h.left) == Sum(Do(b, h, Tick(dt)).left) + Work(|b.crew|, dt)
    ensures Work(|b.crew|, h.now + dt) == Work(|b.crew|, h.now) + Work(|b.crew|, dt)
  {
    SumTick(h.left, Do(b, h, Tick(dt)).left, dt);
    WorkAdds(|b.crew|, h.now, dt);
  }

  lemma TickOnTime(b: Batch, h: Shop, dt: nat, total: nat, cap: nat)
    requires OnTime(b, h, total, cap) && Possible(b, h, Tick(dt))
    ensures OnTime(b, Do(b, h, Tick(dt)), total, cap)
  {
    var h' := Do(b, h, Tick(dt));
    var m := |b.crew|;
    if h.s.taskQueue != map[] {
      TickBusy(b, h, dt);
    } else {
      forall j | 0 <= j < m && Busy(b, h.s, j) ensures Work(m, h'.now + h'.left[j]) <= total + Work(m - 1, cap) {
        assert h'.now + h'.left[j] == h.now + h.left[j];
      }
    }
  }

  /** The books after member `j` swapped its finished task for `t`. */
  lemma Swap(b: Batch, left: seq<nat>, j: nat, t: Ticket, q: set<Ticket>)
    requires b.Proper() && j < |left| && left[j] == 0 && t in q && t in b.tasks
    ensures Sum(left[j := b.Time(t)]) + Queued(b, b.tasks, q - {t}) == Sum(left) + Queued(b, b.tasks, q)
  {
    SumUpdate(left, j, b.Time(t));
    QueuedRemove(b, b.tasks, q, t);
  }

  /** As long as everybody has worked all the time the bound is in reach, whether or not the queue just ran dry. */
  lemma InReach(b: Batch, h: Shop, total: nat, cap: nat)
    requires |h.left| == |b.crew| && Staffed(b, h.s)
    requires forall k :: 0 <= k < |b.tasks| ==> b.Time(b.tasks[k]) <= cap
    requires forall j :: 0 <= j < |b.crew| ==> h.left[j] <= cap
    requires Work(|b.crew|, h.now) + Sum(h.left) + Queued(b, b.tasks, h.s.taskQueue.Keys) == total
    ensures OnTime(b, h, total, cap)
  {
    var m := |b.crew|;
    if h.s.taskQueue == map[] {
      assert h.s.taskQueue.Keys == {};
      QueuedNone(b, b.tasks);
      forall k | 0 <= k < m ensures Work(m, h.now + h.left[k]) <= total + Work(m - 1, cap) {
        LastStretch(m, h.now, h.left, k, total, cap);
      }
    }
  }

  lemma FinishEarly(b: Batch, h: Shop, mv: Move, total: nat, cap: nat)
    requires OnTime(b, h, total, cap) && mv.Finish? && Possible(b, h, mv) && h.s.taskQueue != map[]
    ensures OnTime(b, Do(b, h, mv), total, cap)
  {
    FinishWithWork(b, h.s, mv.j, mv.msg, mv.clock, mv.picks);
    var t := mv.picks[0];
    assert (h.s.taskQueue - {t}).Keys == h.s.taskQueue.Keys - {t};
    Swap(b, h.left, mv.j, t, h.s.taskQueue.Keys);
    InReach(b, Do(b, h, mv), total, cap);
  }

  /** With nothing queued, whoever is still busy later was busy before with the same time left. */
  lemma StaysOnTime(b: Batch, h: Shop, h': Shop, total: nat, cap: nat)
    requires OnTime(b, h, total, cap) && h.s.taskQueue == map[]
    requires h'.s.taskQueue == map[] && Staffed(b, h'.s) && h'.now == h.now && |h'.left| == |h.left|
    requires forall k :: 0 <= k < |b.crew| ==> h'.left[k] <= h.left[k] && (Busy(b, h'.s, k) ==> Busy(b, h.s, k))
    ensures OnTime(b, h', total, cap)
  {
    var m := |b.crew|;
    forall k | 0 <= k < m && Busy(b, h'.s, k) ensures Work(m, h'.now + h'.left[k]) <= total + Work(m - 1, cap) {
      WorkGrows(m, h'.now + h'.left[k], h.now + h.left[k]);
    }
  }

  lemma FinishLate(b: Batch, h: Shop, mv: Move, total: nat, cap: nat)
    requires OnTime(b, h, total, cap) && mv.Finish? && Possible(b, h, mv) && h.s.taskQueue == map[]
    ensures OnTime(b, Do(b, h, mv), total, cap)
  {
    FinishWithoutWork(b, h.s, mv.j, mv.msg, mv.clock, mv.picks);
    StaysOnTime(b, h, Do(b, h, mv), total, cap);
  }

  lemma FinishOnTime(b: Batch, h: Shop, mv: Move, total: nat, cap: nat)
    requires OnTime(b, h, total, cap) && mv.Finish? && Possible(b, h, mv)
    ensures OnTime(b, Do(b, h, mv), total, cap)
  {
    if h.s.taskQueue != map[] {
      FinishEarly(b, h, mv, total, cap);
    } else {
      FinishLate(b, h, mv, total, cap);
    }
  }

  /** Whoever finishes now finishes in time. */
  lemma InTime(b: Batch, h: Shop, j: nat, total: nat, cap: nat)
    requires OnTime(b, h, total, cap) && j < |b.crew| && Busy(b, h.s, j) && h.left[j] == 0
    ensures Work(|b.crew|, h.now) <= total + Work(|b.crew| - 1, cap)
  {
    assert h.now + h.left[j] == h.now;
  }

  /** Output and the watchdog cost no time and change nobody's work. */
  lemma MeanwhileOnTime(b: Batch, h: Shop, mv: Move, total: nat, cap: nat)
    requires OnTime(b, h, total, cap) && (mv.Output? || mv.Watch?) && Possible(b, h, mv)
    ensures OnTime(b, Do(b, h, mv), total, cap)
  {
    if mv.Output? {
      OutputUndisturbed(h.s, b.crew[mv.j], mv.msg, mv.clock);
    } else {
      WatchUndisturbed(h.s, mv.at, mv.picks);
    }
    SameWork(b, h, Do(b, h, mv), total, cap);
  }

  lemma SameWork(b: Batch, h: Shop, h': Shop, total: nat, cap: nat)
    requires OnTime(b, h, total, cap) && Undisturbed(h.s, h'.s) && h'.now == h.now && h'.left == h.left
    ensures OnTime(b, h', total, cap)
  {
    UndisturbedStaffed(b, h.s, h'.s);
  }

  ghost predicate Shift(b: Batch, h: Shop, mvs: seq<Move>)
    decreases |mvs|
  {
    mvs == [] || (|h.left| == |b.crew| && Possible(b, h, mvs[0]) && Shift(b, Do(b, h, mvs[0]), mvs[1..]))
  }

  ghost function Later(b: Batch, h: Shop, mvs: seq<Move>): Shop
    requires Shift(b, h, mvs)
    decreases |mvs|
  {
    if mvs == [] then h else Later(b, Do(b, h, mvs[0]), mvs[1..])
  }

  /** The state the batch starts in: everything submitted, as many tasks as possible already handed out, and
      `total` the sum of the times of all tasks, handed out or queued. */
  predicate AllSubmitted(b: Batch, h: Shop, total: nat, cap: nat) {
    && h.now == 0 && |h.left| == |b.crew| && Staffed(b, h.s)
    && (forall k :: 0 <= k < |b.tasks| ==> b.Time(b.tasks[k]) <= cap)
    && (forall j :: 0 <= j < |b.crew| ==> h.left[j] <= cap)
    && total == Sum(h.left) + Queued(b, b.tasks, h.s.taskQueue.Keys)
  }

  lemma {:induction false} ShiftOnTime(b: Batch, h: Shop, mvs: seq<Move>, total: nat, cap: nat)
    requires OnTime(b, h, total, cap) && Shift(b, h, mvs)
    ensures OnTime(b, Later(b, h, mvs), total, cap)
    decreases |mvs|
  {
    if mvs == [] {
    } else {
      if mvs[0].Tick? {
        TickOnTime(b, h, mvs[0].dt, total, cap);
      } else if mvs[0].Finish? {
        FinishOnTime(b, h, mvs[0], total, cap);
      } else {
        MeanwhileOnTime(b, h, mvs[0], total, cap);
      }
      ShiftOnTime(b, Do(b, h, mvs[0]), mvs[1..], total, cap);
    }
  }

  lemma StartOnTime(b: Batch, h: Shop, total: nat, cap: nat)
    requires AllSubmitted(b, h, total, cap)
    ensures OnTime(b, h, total, cap)
  {
    WorkIsProduct(|b.crew|, 0);
    InReach(b, h, total, cap);
  }

  /**
    With m executors, whatever the order in which equal priorities are taken, whatever output is relayed and whenever
    the watchdog fires, no task finishes later than T with
    m * T <= (sum of all task times) + (m - 1) * (longest task time).
   */
  lemma ListSchedulingBound(b: Batch, h: Shop, mvs: seq<Move>, last: Move, total: nat, cap: nat)
    requires AllSubmitted(b, h, total, cap) && Shift(b, h, mvs)
    requires |Later(b, h, mvs).left| == |b.crew| && last.Finish? && Possible(b, Later(b, h, mvs), last)
    ensures |b.crew| * Later(b, h, mvs).now <= total + (|b.crew| - 1) * cap
  {
    EndsOnTime(b, h, mvs, total, cap);
    LastInTime(b, Later(b, h, mvs), last, total, cap);
  }

  lemma EndsOnTime(b: Batch, h: Shop, mvs: seq<Move>, total: nat, cap: nat)
    requires AllSubmitted(b, h, total, cap) && Shift(b, h, mvs)
    ensures OnTime(b, Later(b, h, mvs), total, cap)
  {
    StartOnTime(b, h, total, cap);
    ShiftOnTime(b, h, mvs, total, cap);
  }

  lemma LastInTime(b: Batch, h: Shop, last: Move, total: nat, cap: nat)
    requires OnTime(b, h, total, cap) && last.Finish? && Possible(b, h, last)
    ensures |b.crew| * h.now <= total + (|b.crew| - 1) * cap
  {
    InTime(b, h, last.j, total, cap);
    AsProducts(|b.crew|, h.now, total, cap);
  }

  lemma AsProducts(m: nat, t: nat, total: nat, cap: nat)
    requires m >= 1 && Work(m, t) <= total + Work(m - 1, cap)
    ensures m * t <= total + (m - 1) * cap
  {
    WorkIsProduct(m, t);
    WorkIsProduct(m - 1, cap);
  }
}
