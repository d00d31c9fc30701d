/** How many executors the server starts. */
module Launching {
  import opened Collections
  import opened Messages
  import opened Scheduler
  import opened Composition
  import opened Invariant
  import opened ServerSteps
  import opened Runs
  import opened Accounts

  /** The room left for one queue's pending executors. */
  function Room(s: State, alt: bool): int {
    Min(|s.taskQueue|, s.cfg.maxCount) - s.running - (if alt then s.pending else s.secondPending)
  }

  function PendingOf(s: State, alt: bool): nat { if alt then s.secondPending else s.pending }

  /** The launch loop raises its counter to the smaller of its target and the room, and never lowers it. */
  lemma {:induction false} LaunchClosedForm(s: State, alt: bool, keep: nat)
    ensures PendingOf(Launch(s, alt, keep), alt) == Max(PendingOf(s, alt), Min(keep, Room(s, alt)))
    ensures PendingOf(Launch(s, alt, keep), !alt) == PendingOf(s, !alt)
    decreases if LaunchGuard(s, alt, keep) then keep - PendingOf(s, alt) else 0
  {
    if !LaunchGuard(s, alt, keep) {
    } else {
      LaunchClosedForm(LaunchOne(s, alt), alt, keep);
    }
  }

  function Load(s: State): nat { s.running + s.pending + s.secondPending }

  lemma LaunchBounds(s: State, alt: bool, keep: nat)
    ensures var s' := Launch(s, alt, keep);
      && s'.running == s.running && s'.taskQueue == s.taskQueue && s'.cfg == s.cfg
      && PendingOf(s', !alt) == PendingOf(s, !alt)
      && PendingOf(s, alt) <= PendingOf(s', alt) <= Max(PendingOf(s, alt), keep)
      && Load(s') <= Max(Load(s), Min(|s.taskQueue|, s.cfg.maxCount))
  {
    LaunchFrame(s, alt, keep);
    LaunchClosedForm(s, alt, keep);
  }

  /** One pass starts executors only up to the number of queued tasks and to the configured maximum, and at most
      one more than the number it wants pending even when it serves two queues. */
  lemma StartBounds(s: State)
    ensures var s' := StartExecs(s);
      && s'.pending >= s.pending && s'.secondPending >= s.secondPending
      && Load(s') <= Max(Load(s), Min(|s.taskQueue|, s.cfg.maxCount))
      && Load(s') - Load(s) <= KeepPending(s) + 1
      && s'.pending <= Max(s.pending, KeepPending(s)) && s'.secondPending <= Max(s.secondPending, KeepPending(s))
  {
    var half := (KeepPending(s) + 1) / 2;
    LaunchBounds(s, false, half);
    LaunchBounds(Launch(s, false, half), true, half);
    LaunchBounds(s, false, KeepPending(s));
  }

  // ---------- the budget, over runs ----------

  /** Executors calling in with the code of one of the two queues. */
  function Callers(y: Sys, alt: bool): set<nat> {
    set i: nat | 0 <= i < |y.conns| && Caller(y.sv.cfg, y.conns[i], alt)
  }

  predicate Caller(cfg: Config, k: Conn, alt: bool) {
    k.peer.ExecPeer? && k.peer.code == cfg.accessCode + (if alt then 1 else 0) && k.peer.user == cfg.userKey
  }

  /** Those among them whose hello the server has handled. */
  function Enrolled(y: Sys, alt: bool): set<nat> {
    set i: nat | 0 <= i < |y.conns| && Caller(y.sv.cfg, y.conns[i], alt) && Registered(y.sv.cfg, y.conns[i])
  }

  /** The server state just before a step starts executors, if it does. */
  function BeforeStart(y: Sys, st: Step): Option<State> {
    if st.Watchdog? then Some(y.sv)
    else if st.Deliver? && st.i < |y.conns| && st.i < |y.sv.remotes| && Next(y.sv.cfg, y.conns[st.i]).Some?
            && LeadsToUpdate(Next(y.sv.cfg, y.conns[st.i]).value) then
      Some(Register(y.sv, st.i, Next(y.sv.cfg, y.conns[st.i]).value, st.clock.stamp).state)
    else None
  }

  /** How many executors of a queue a step spawns. */
  function Spawns(y: Sys, st: Step, alt: bool): int {
    var s := BeforeStart(y, st);
    if s.None? then 0 else PendingOf(StartExecs(s.value), alt) - PendingOf(s.value, alt)
  }

  ghost function Spawned(y: Sys, steps: seq<Step>, alt: bool): int
    requires Run(y, steps)
    decreases |steps|
  {
    if steps == [] then 0 else Spawns(y, steps[0], alt) + Spawned(Apply(y, steps[0]), steps[1..], alt)
  }

  /** After `k` steps, no more executors have called in for a queue than were spawned for it; `n` and `m` were spawned
      for the two queues before. */
  ghost predicate InvitedAt(y: Sys, steps: seq<Step>, n: int, m: int, k: nat)
    requires k <= |steps|
  {
    Run(y, steps[..k]) ==>
      && |Callers(After(y, steps[..k]), false)| <= n + Spawned(y, steps[..k], false)
      && |Callers(After(y, steps[..k]), true)| <= m + Spawned(y, steps[..k], true)
  }

  /** That holds all along the run. */
  ghost predicate Invited(y: Sys, steps: seq<Step>, n: int, m: int) {
    forall k :: 0 <= k <= |steps| ==> InvitedAt(y, steps, n, m, k)
  }

  /** Each counter is the number of executors spawned for its queue that have not been enrolled, and the total
      stays within the maximum. */
  predicate InBudget(y: Sys, n: int, m: int) {
    && y.sv.pending == n - |Enrolled(y, false)| && y.sv.secondPending == m - |Enrolled(y, true)|
    && Load(y.sv) <= y.sv.cfg.maxCount
  }

  /** Connection `j` is enrolled in both states or in neither. */
  predicate SameStanding(y: Sys, z: Sys, j: nat)
    requires j < |y.conns| && j < |z.conns|
  {
    && SamePeer(y.conns[j].peer, z.conns[j].peer)
    && (y.conns[j].peer.ExecPeer? ==> (Registered(y.sv.cfg, y.conns[j]) <==> Registered(z.sv.cfg, z.conns[j])))
  }

  lemma SameEnrolled(y: Sys, z: Sys)
    requires |z.conns| == |y.conns| && z.sv.cfg == y.sv.cfg
    requires forall j :: 0 <= j < |y.conns| ==> SameStanding(y, z, j)
    ensures Enrolled(z, false) == Enrolled(y, false) && Enrolled(z, true) == Enrolled(y, true)
  {
    forall i: nat, alt: bool ensures i in Enrolled(z, alt) <==> i in Enrolled(y, alt) {
      if i < |y.conns| {
        assert SameStanding(y, z, i);
      }
    }
  }

  lemma OutsideStanding(y: Sys, st: Step, j: nat)
    requires Sizes(y) && Outside(st) && Enabled(y, st) && LocalAt(y, st.i) && j < |y.conns|
    ensures |Apply(y, st).conns| == |y.conns| && SameStanding(y, Apply(y, st), j)
    ensures Apply(y, st).sv == y.sv.(remotes := Apply(y, st).sv.remotes)
  {
  }

  lemma OutsideBudget(y: Sys, st: Step, n: int, m: int)
    requires Inv(y) && Outside(st) && Enabled(y, st) && InBudget(y, n, m)
    ensures InBudget(Apply(y, st), n, m) && Apply(y, st).sv.cfg == y.sv.cfg
  {
    assert LocalAt(y, st.i);
    OutsideStanding(y, st, st.i);
    forall j | 0 <= j < |y.conns| ensures SameStanding(y, Apply(y, st), j) {
      OutsideStanding(y, st, j);
    }
    SameEnrolled(y, Apply(y, st));
  }

  lemma AcceptBudget(y: Sys, p: Peer, n: int, m: int)
    requires Sizes(y) && Enabled(y, Accept(p)) && InBudget(y, n, m)
    ensures InBudget(Apply(y, Accept(p)), n, m)
  {
    var z := Apply(y, Accept(p));
    assert Enrolled(z, false) == Enrolled(y, false);
    assert Enrolled(z, true) == Enrolled(y, true);
  }

  /** The caller whose hello arrives is of exactly one queue, and not enrolled yet. */
  lemma HelloStanding(cfg: Config, r: Remote, k: Conn, m: Message)
    requires LocalOK(cfg, r, k) && Next(cfg, k) == Some(m) && m.YourObedientServant? && cfg.accessCode % 2 == 0
    ensures k.peer.ExecPeer? && m.accessCode == k.peer.code && r.paired.None?
    ensures var alt := k.peer.code % 2 != 0;
      Caller(cfg, k, alt) && !Caller(cfg, k, !alt) && !Registered(cfg, k) && Registered(cfg, k.(done := k.done + 1))
  {
    NextShape(cfg, r, k, m);
  }

  lemma HelloShape(y: Sys, i: nat, m: Message, now: Nanos)
    requires Sizes(y) && i < |y.conns| && m.YourObedientServant? && y.sv.remotes[i].paired.None?
    ensures var z := RegisterSys(y, i, m, now); var alt := m.accessCode % 2 != 0;
      && z.conns == y.conns[i := y.conns[i].(done := y.conns[i].done + 1)] && z.sv.cfg == y.sv.cfg
      && z.sv.running == y.sv.running + 1 && PendingOf(z.sv, !alt) == PendingOf(y.sv, !alt)
      && PendingOf(z.sv, alt) == Max(0, PendingOf(y.sv, alt) - 1)
  {
  }

  /** Enrolling caller `i` of queue `alt` adds it to that queue's enrolled and leaves the other's. */
  lemma EnrolOne(y: Sys, z: Sys, i: nat, alt: bool)
    requires i < |y.conns| && z.sv.cfg == y.sv.cfg
    requires z.conns == y.conns[i := y.conns[i].(done := y.conns[i].done + 1)]
    requires Caller(y.sv.cfg, y.conns[i], alt) && !Caller(y.sv.cfg, y.conns[i], !alt)
    requires !Registered(y.sv.cfg, y.conns[i]) && Registered(y.sv.cfg, z.conns[i])
    ensures Enrolled(z, alt) == Enrolled(y, alt) + {i} && i !in Enrolled(y, alt)
    ensures Enrolled(z, !alt) == Enrolled(y, !alt)
    ensures |Enrolled(y, alt)| < |Callers(y, alt)|
  {
    forall j: nat ensures j in Enrolled(z, alt) <==> j in Enrolled(y, alt) || j == i {
      assert j != i && j < |y.conns| ==> z.conns[j] == y.conns[j];
    }
    var other := !alt;
    forall j: nat ensures j in Enrolled(z, other) <==> j in Enrolled(y, other) {
      assert j != i && j < |y.conns| ==> z.conns[j] == y.conns[j];
    }
    assert i in Callers(y, alt);
    SubsetSize(Enrolled(y, alt), Callers(y, alt));
  }

  lemma HelloBudget(y: Sys, i: nat, m: Message, now: Nanos, n0: int, n1: int)
    requires Sizes(y) && i < |y.conns| && LocalAt(y, i) && Next(y.sv.cfg, y.conns[i]) == Some(m)
    requires m.YourObedientServant? && y.sv.cfg.accessCode % 2 == 0
    requires InBudget(y, n0, n1) && |Callers(y, false)| <= n0 && |Callers(y, true)| <= n1
    ensures InBudget(RegisterSys(y, i, m, now), n0, n1)
    ensures RegisterSys(y, i, m, now).sv.cfg == y.sv.cfg
  {
    HelloStanding(y.sv.cfg, y.sv.remotes[i], y.conns[i], m);
    HelloShape(y, i, m, now);
    EnrolOne(y, RegisterSys(y, i, m, now), i, m.accessCode % 2 != 0);
  }

  lemma OtherStanding(y: Sys, i: nat, m: Message, now: Nanos, j: nat)
    requires Sizes(y) && i < |y.conns| && LocalAt(y, i) && Next(y.sv.cfg, y.conns[i]) == Some(m) && j < |y.conns|
    requires !m.YourObedientServant?
    ensures SameStanding(y, RegisterSys(y, i, m, now), j)
  {
    NextShape(y.sv.cfg, y.sv.remotes[i], y.conns[i], m);
    RegisterCounters(y.sv, i, m, now);
  }

  /** Registering anything else enrols nobody, starts nobody and adds nobody to the count. */
  lemma OtherBudget(y: Sys, i: nat, m: Message, now: Nanos, n0: int, n1: int)
    requires Arrives(y, i, m) && !m.YourObedientServant? && Register(y.sv, i, m, now).verdict == Ok
    requires InBudget(y, n0, n1)
    ensures InBudget(RegisterSys(y, i, m, now), n0, n1)
    ensures RegisterSys(y, i, m, now).sv.cfg == y.sv.cfg
  {
    assert LocalAt(y, i);
    RegisterCounters(y.sv, i, m, now);
    forall j | 0 <= j < |y.conns| ensures SameStanding(y, RegisterSys(y, i, m, now), j) {
      OtherStanding(y, i, m, now, j);
    }
    SameEnrolled(y, RegisterSys(y, i, m, now));
  }

  lemma RegisterCounters(s: State, i: nat, m: Message, now: Nanos)
    requires i < |s.remotes| && !m.YourObedientServant?
    ensures var s' := Register(s, i, m, now).state;
      s'.cfg == s.cfg && s'.pending == s.pending && s'.secondPending == s.secondPending && s'.running <= s.running
  {
  }

  lemma {:induction false} AssignBudget(y: Sys, picks: seq<Ticket>)
    requires ValidPicks(y.sv, picks)
    ensures var z := AssignSys(y, picks);
      && Enrolled(z, false) == Enrolled(y, false) && Enrolled(z, true) == Enrolled(y, true)
      && z.sv.pending == y.sv.pending && z.sv.secondPending == y.sv.secondPending && z.sv.running == y.sv.running
      && z.sv.cfg == y.sv.cfg
    decreases |picks|
  {
    if picks == [] {
    } else {
      var z := AssignOneSys(y, picks[0]);
      assert Enrolled(z, false) == Enrolled(y, false) && Enrolled(z, true) == Enrolled(y, true);
      if AssignOne(y.sv, picks[0]).verdict == Ok {
        AssignBudget(z, picks[1..]);
      }
    }
  }

  lemma {:induction false} ReleaseCounters(s: State)
    ensures var s' := Release(s).state;
      s'.cfg == s.cfg && s'.pending == s.pending && s'.secondPending == s.secondPending && s'.running <= s.running
    decreases |s.execQueue|
  {
    if s.execQueue == [] {
    } else if ReleaseOne(s).verdict == Ok {
      ReleaseCounters(ReleaseOne(s).state);
    }
  }

  /** Serving the queues enrols nobody and starts nobody. */
  lemma CheckBudget(y: Sys, now: Nanos, picks: seq<Ticket>, n: int, m: int)
    requires ValidPicks(y.sv, picks) && InBudget(y, n, m)
    ensures InBudget(AssignSys(y, picks).(sv := CheckQueues(y.sv, now, picks).state), n, m)
  {
    var z := AssignSys(y, picks);
    AssignState(y, picks);
    AssignBudget(y, picks);
    ReleaseCounters(z.sv);
    SameBooks(z, z.(sv := CheckQueues(y.sv, now, picks).state));
  }

  /** Who is enrolled depends on the connections and the configuration only. */
  lemma SameBooks(y: Sys, z: Sys)
    requires z.conns == y.conns && z.sv.cfg == y.sv.cfg
    ensures Enrolled(z, false) == Enrolled(y, false) && Enrolled(z, true) == Enrolled(y, true)
  {
  }

  lemma UpdateBudget(y: Sys, now: Nanos, picks: seq<Ticket>, n: int, m: int)
    requires ValidPicks(StartExecs(y.sv), picks) && InBudget(y, n, m)
    ensures InBudget(UpdateSys(y, now, picks),
                     n + PendingOf(StartExecs(y.sv), false) - PendingOf(y.sv, false),
                     m + PendingOf(StartExecs(y.sv), true) - PendingOf(y.sv, true))
  {
    var y1 := y.(sv := StartExecs(y.sv));
    var n' := n + PendingOf(StartExecs(y.sv), false) - PendingOf(y.sv, false);
    var m' := m + PendingOf(StartExecs(y.sv), true) - PendingOf(y.sv, true);
    StartFrame(y.sv);
    StartBounds(y.sv);
    SameBooks(y, y1);
    CheckBudget(y1, now, picks, n', m');
  }

  lemma StepBudget(y: Sys, st: Step, n: int, m: int)
    requires Inv(y) && Enabled(y, st) && y.sv.cfg.accessCode % 2 == 0 && InBudget(y, n, m)
    requires |Callers(y, false)| <= n && |Callers(y, true)| <= m
    ensures InBudget(Apply(y, st), n + Spawns(y, st, false), m + Spawns(y, st, true))
    ensures Apply(y, st).sv.cfg == y.sv.cfg
  {
    if st.Accept? {
      AcceptBudget(y, st.peer, n, m);
    } else if st.Watchdog? {
      UpdateBudget(y, st.now, st.picks, n, m);
      UpdateCfg(y.sv, st.now, st.picks);
    } else if st.Deliver? {
      var msg := Next(y.sv.cfg, y.conns[st.i]).value;
      DeliverBudget(y, st, msg, n, m);
    } else {
      OutsideBudget(y, st, n, m);
    }
  }

  lemma UpdateCfg(s: State, now: Nanos, picks: seq<Ticket>)
    requires ValidPicks(StartExecs(s), picks)
    ensures Update(s, now, picks).state.cfg == s.cfg
  {
    StartFrame(s);
    AssignBudget(Sys(StartExecs(s), []), picks);
    AssignState(Sys(StartExecs(s), []), picks);
    ReleaseCounters(Assign(StartExecs(s), picks).state);
  }

  lemma {:induction false} AssignState(y: Sys, picks: seq<Ticket>)
    requires ValidPicks(y.sv, picks)
    ensures AssignSys(y, picks).sv == Assign(y.sv, picks).state
    decreases |picks|
  {
    if picks == [] {
    } else if AssignOne(y.sv, picks[0]).verdict == Ok {
      AssignState(AssignOneSys(y, picks[0]), picks[1..]);
    }
  }

  lemma RegisterBudget(y: Sys, i: nat, msg: Message, now: Nanos, n: int, m: int)
    requires Arrives(y, i, msg) && Register(y.sv, i, msg, now).verdict == Ok
    requires y.sv.cfg.accessCode % 2 == 0 && InBudget(y, n, m)
    requires |Callers(y, false)| <= n && |Callers(y, true)| <= m
    ensures InBudget(RegisterSys(y, i, msg, now), n, m) && RegisterSys(y, i, msg, now).sv.cfg == y.sv.cfg
  {
    if msg.YourObedientServant? {
      assert LocalAt(y, i);
      HelloBudget(y, i, msg, now, n, m);
    } else {
      OtherBudget(y, i, msg, now, n, m);
    }
  }

  /** What a message starts, counted from the state in which it was registered. */
  function SpawnsFrom(s: State, m: Message, alt: bool): int {
    if LeadsToUpdate(m) then PendingOf(StartExecs(s), alt) - PendingOf(s, alt) else 0
  }

  lemma HandleBudget(y: Sys, i: nat, msg: Message, clock: Clock, picks: seq<Ticket>, n: int, m: int)
    requires Arrives(y, i, msg) && PicksFor(y.sv, i, msg, clock, picks)
    requires Register(y.sv, i, msg, clock.stamp).verdict == Ok
    requires y.sv.cfg.accessCode % 2 == 0 && InBudget(y, n, m)
    requires |Callers(y, false)| <= n && |Callers(y, true)| <= m
    ensures var z, s := HandleSys(y, i, msg, clock, picks), Register(y.sv, i, msg, clock.stamp).state;
      InBudget(z, n + SpawnsFrom(s, msg, false), m + SpawnsFrom(s, msg, true)) && z.sv.cfg == y.sv.cfg
  {
    var z := RegisterSys(y, i, msg, clock.stamp);
    RegisterBudget(y, i, msg, clock.stamp, n, m);
    if LeadsToUpdate(msg) {
      RegisterKeeps(y, i, msg, clock.stamp);
      UpdateBudget(z, clock.check, picks, n, m);
      UpdateCfg(z.sv, clock.check, picks);
    }
  }

  lemma DeliverBudget(y: Sys, st: Step, msg: Message, n: int, m: int)
    requires Inv(y) && st.Deliver? && Enabled(y, st) && y.sv.cfg.accessCode % 2 == 0 && InBudget(y, n, m)
    requires |Callers(y, false)| <= n && |Callers(y, true)| <= m
    requires Next(y.sv.cfg, y.conns[st.i]) == Some(msg)
    ensures InBudget(Apply(y, st), n + Spawns(y, st, false), m + Spawns(y, st, true))
    ensures Apply(y, st).sv.cfg == y.sv.cfg
  {
    HandleBudget(y, st.i, msg, st.clock, st.picks, n, m);
    SameBooks(HandleSys(y, st.i, msg, st.clock, st.picks), Apply(y, st));
  }

  /** In order, and within the budget after `n` and `m` were spawned. */
  predicate Budgeted(y: Sys, n: int, m: int) {
    Inv(y) && y.sv.cfg.accessCode % 2 == 0 && InBudget(y, n, m)
  }

  lemma StepBudgeted(y: Sys, st: Step, n: int, m: int)
    requires Budgeted(y, n, m) && Enabled(y, st) && |Callers(y, false)| <= n && |Callers(y, true)| <= m
    ensures Budgeted(Apply(y, st), n + Spawns(y, st, false), m + Spawns(y, st, true))
  {
    StepKeeps(y, st);
    StepBudget(y, st, n, m);
  }

  /** `n` and `m` plus what the run spawns are `n'` and `m'`. */
  ghost predicate Totals(y: Sys, steps: seq<Step>, n: int, m: int, n': int, m': int)
    requires Run(y, steps)
  {
    n' == n + Spawned(y, steps, false) && m' == m + Spawned(y, steps, true)
  }

  lemma TotalsFirst(y: Sys, steps: seq<Step>, n: int, m: int, n': int, m': int)
    requires steps != [] && Run(y, steps) && Totals(y, steps, n, m, n', m')
    ensures Enabled(y, steps[0]) && Run(Apply(y, steps[0]), steps[1..])
    ensures Totals(Apply(y, steps[0]), steps[1..],
                   n + Spawns(y, steps[0], false), m + Spawns(y, steps[0], true), n', m')
  {
  }

  /** A run that has its callers invited and is to end with `n'` and `m'` spawned. */
  ghost predicate Planned(y: Sys, steps: seq<Step>, n: int, m: int, n': int, m': int) {
    Run(y, steps) && Invited(y, steps, n, m) && Totals(y, steps, n, m, n', m')
  }

  lemma NextPlanned(y: Sys, steps: seq<Step>, n: int, m: int, n': int, m': int)
    requires steps != [] && Planned(y, steps, n, m, n', m')
    ensures Enabled(y, steps[0]) && |Callers(y, false)| <= n && |Callers(y, true)| <= m
    ensures Planned(Apply(y, steps[0]), steps[1..],
                    n + Spawns(y, steps[0], false), m + Spawns(y, steps[0], true), n', m')
  {
    InvitedFirst(y, steps, n, m);
    TotalsFirst(y, steps, n, m, n', m');
  }

  lemma {:induction false} RunBudget(y: Sys, steps: seq<Step>, n: int, m: int, n': int, m': int)
    requires Budgeted(y, n, m) && Planned(y, steps, n, m, n', m')
    ensures InBudget(After(y, steps), n', m')
    decreases |steps|
  {
    if steps == [] {
    } else {
      NextPlanned(y, steps, n, m, n', m');
      StepBudgeted(y, steps[0], n, m);
      RunBudget(Apply(y, steps[0]), steps[1..],
                n + Spawns(y, steps[0], false), m + Spawns(y, steps[0], true), n', m');
    }
  }

  lemma InvitedFirst(y: Sys, steps: seq<Step>, n: int, m: int)
    requires steps != [] && Run(y, steps) && Invited(y, steps, n, m)
    ensures |Callers(y, false)| <= n && |Callers(y, true)| <= m && Enabled(y, steps[0])
    ensures Run(Apply(y, steps[0]), steps[1..])
    ensures Invited(Apply(y, steps[0]), steps[1..], n + Spawns(y, steps[0], false), m + Spawns(y, steps[0], true))
  {
    assert InvitedAt(y, steps, n, m, 0) && steps[..0] == [];
    var z, rest := Apply(y, steps[0]), steps[1..];
    var n', m' := n + Spawns(y, steps[0], false), m + Spawns(y, steps[0], true);
    forall k | 0 <= k <= |rest| ensures InvitedAt(z, rest, n', m', k) {
      assert InvitedAt(y, steps, n, m, k + 1);
      InvitedShift(y, steps, n, m, k);
    }
  }

  lemma InvitedShift(y: Sys, steps: seq<Step>, n: int, m: int, k: nat)
    requires steps != [] && Enabled(y, steps[0]) && k < |steps| && InvitedAt(y, steps, n, m, k + 1)
    ensures InvitedAt(Apply(y, steps[0]), steps[1..],
                      n + Spawns(y, steps[0], false), m + Spawns(y, steps[0], true), k)
  {
    assert steps[..k + 1][0] == steps[0] && steps[..k + 1][1..] == steps[1..][..k];
  }

  /**
    If never more executors call in for a queue than were spawned for it, then in every reachable state each
    pending counter is exactly the number spawned for its queue and not yet enrolled, and running and pending
    executors together never exceed the configured maximum.
   */
  lemma ExecutorBudget(y: Sys, steps: seq<Step>)
    requires Initial(y) && Run(y, steps) && Invited(y, steps, 0, 0)
    ensures InBudget(After(y, steps), Spawned(y, steps, false), Spawned(y, steps, true))
  {
    InitialInv(y);
    assert Enrolled(y, false) == {} && Enrolled(y, true) == {};
    RunBudget(y, steps, 0, 0, Spawned(y, steps, false), Spawned(y, steps, true));
  }

  // ---------- each counter, over all runs ----------

  predicate Modest(s: State) {
    var limit := Max(s.cfg.keepPending, s.cfg.initialCount);
    s.pending <= limit && s.secondPending <= limit
  }

  lemma UpdateModest(s: State, now: Nanos, picks: seq<Ticket>)
    requires ValidPicks(StartExecs(s), picks) && Modest(s)
    ensures Modest(Update(s, now, picks).state)
  {
    StartFrame(s);
    StartBounds(s);
    AssignBudget(Sys(StartExecs(s), []), picks);
    AssignState(Sys(StartExecs(s), []), picks);
    ReleaseCounters(Assign(StartExecs(s), picks).state);
  }

  lemma StepModest(y: Sys, st: Step)
    requires Enabled(y, st) && Modest(y.sv)
    ensures Modest(Apply(y, st).sv)
  {
    if st.Watchdog? {
      UpdateModest(y.sv, st.now, st.picks);
    } else if st.Deliver? {
      var m := Next(y.sv.cfg, y.conns[st.i]).value;
      if !m.YourObedientServant? {
        RegisterCounters(y.sv, st.i, m, st.clock.stamp);
      }
      if LeadsToUpdate(m) {
        UpdateModest(Register(y.sv, st.i, m, st.clock.stamp).state, st.clock.check, st.picks);
      }
    }
  }

  lemma {:induction false} RunModest(y: Sys, steps: seq<Step>)
    requires Run(y, steps) && Modest(y.sv)
    ensures Modest(After(y, steps).sv)
    decreases |steps|
  {
    if steps == [] {
    } else {
      StepModest(y, steps[0]);
      RunModest(Apply(y, steps[0]), steps[1..]);
    }
  }

  /** In every run, neither counter exceeds the larger of the configured `keep_pending` and `initial_count`. */
  lemma PendingBounded(y: Sys, steps: seq<Step>)
    requires Initial(y) && Run(y, steps)
    ensures Modest(After(y, steps).sv)
  {
    RunModest(y, steps);
  }

  // ---------- what one pass leaves ----------

  /** One pass over the two queues, in closed form. With nothing queued nobody is started. Else the server wants
      as many outstanding executors as are configured, or as many as the initial number still lacks if that is
      more, and with two queues half of that, rounded up, in each. */
  lemma StartExact(s: State)
    ensures var wanted := Max(s.cfg.keepPending, s.cfg.initialCount - s.running);
      var room := Min(|s.taskQueue|, s.cfg.maxCount) - s.running;
      var s' := StartExecs(s);
      if s.taskQueue == map[] then s'.pending == s.pending && s'.secondPending == s.secondPending
      else if !s.cfg.bothQueues then
        s'.pending == Max(s.pending, Min(wanted, room - s.secondPending)) && s'.secondPending == s.secondPending
      else
        && s'.pending == Max(s.pending, Min((wanted + 1) / 2, room - s.secondPending))
        && s'.secondPending == Max(s.secondPending, Min((wanted + 1) / 2, room - s'.pending))
  {
    var half := (KeepPending(s) + 1) / 2;
    var s1 := Launch(s, false, half);
    LaunchFrame(s, false, half);
    LaunchClosedForm(s, false, half);
    LaunchFrame(s1, true, half);
    LaunchClosedForm(s1, true, half);
    LaunchClosedForm(s, false, KeepPending(s));
  }

  /** Serving the queues starts executors by the number of tasks queued before any is handed out, and matching and
      releasing change neither pending counter. */
  lemma UpdateStarts(s: State, now: Nanos, picks: seq<Ticket>)
    requires ValidPicks(StartExecs(s), picks)
    ensures Update(s, now, picks).state.pending == StartExecs(s).pending
    ensures Update(s, now, picks).state.secondPending == StartExecs(s).secondPending
  {
    AssignBudget(Sys(StartExecs(s), []), picks);
    AssignState(Sys(StartExecs(s), []), picks);
    ReleaseCounters(Assign(StartExecs(s), picks).state);
  }

  /** A single queued task and no executor anywhere: one is started. */
  lemma FirstTaskStartsOne(s: State)
    requires |s.taskQueue| == 1 && s.running == s.pending == s.secondPending == 0 && !s.cfg.bothQueues
    requires s.cfg.maxCount >= 1 && (s.cfg.keepPending >= 1 || s.cfg.initialCount >= 1)
    ensures StartExecs(s).pending == 1
  {
    StartExact(s);
  }
}
