/** From the executor's files to the client's, through the server, in every run. */
module EndToEnd {
  import opened Collections
  import opened Messages
  import opened Scheduler
  import opened Composition
  import opened Invariant
  import opened ServerSteps
  import opened Runs
  import opened Relay
  import opened Guarantees
  import opened Redirection
  import opened Transfer
  import opened Execution

  /** The names the client gives its output files: the arguments at the output indices. */
  function OutputNames(d: TaskDetails): (names: seq<string>)
    requires OutputArgsInRange(d)
    ensures |names| == |d.outputArgs|
  {
    seq(|d.outputArgs|, i requires 0 <= i < |d.outputArgs| => d.args[d.outputArgs[i]])
  }

  predicate IndicesInRange(y: Sys) {
    forall c :: 0 <= c < |y.conns| && y.conns[c].peer.ClientPeer? ==> OutputArgsInRange(y.conns[c].peer.details)
  }

  /** In every reachable state every client's output positions are inside its arguments. */
  lemma IndicesStayInRange(y: Sys, steps: seq<Step>)
    requires Initial(y) && Run(y, steps)
    ensures IndicesInRange(After(y, steps))
  {
    Reached(y, steps);
    var z := After(y, steps);
    forall c | 0 <= c < |z.conns| && z.conns[c].peer.ClientPeer? ensures OutputArgsInRange(z.conns[c].peer.details) {
      assert LocalAt(z, c);
    }
  }

  /** A busy executor works on the task of the client it is paired with. */
  lemma WorkIsClients(cfg: Config, c: nat, rc: Remote, kc: Conn, re: Remote, ke: Conn)
    requires kc.job.Some? && kc.peer.ClientPeer? && JobOK(cfg, c, rc, kc, re, ke)
    requires re.paired == Some(c) && Working(ke) && PhaseOK(re, ke)
    ensures ke.peer.phase.work == kc.peer.details
  {
  }

  lemma BusyIsPaired(cfg: Config, r: Remote, k: Conn)
    requires LocalOK(cfg, r, k) && Working(k)
    ensures r.paired.Some? && PhaseOK(r, k)
  {
  }

  /** The task a busy executor works on has its output positions inside its arguments. */
  lemma WorkInRange(y: Sys, steps: seq<Step>, e: nat)
    requires Initial(y) && Run(y, steps)
    ensures var z := After(y, steps);
      e < |z.conns| && Working(z.conns[e]) ==> OutputArgsInRange(z.conns[e].peer.phase.work)
  {
    Reached(y, steps);
    IndicesStayInRange(y, steps);
    var z := After(y, steps);
    if e < |z.conns| && Working(z.conns[e]) {
      assert LocalAt(z, e) && PairAt(z, e);
      BusyIsPaired(z.sv.cfg, z.sv.remotes[e], z.conns[e]);
      var c := z.sv.remotes[e].paired.value;
      assert JobAt(z, c);
      WorkIsClients(z.sv.cfg, c, z.sv.remotes[c], z.conns[c], z.sv.remotes[e], z.conns[e]);
    }
  }

  /** One output of the task: `place` is where the client's name for it leads, `redirected` the name the command was
      given. The client has in that place what the command wrote under the redirected name, and nothing new if that
      did not open or is empty. */
  predicate Returned(place: string, redirected: string, remote: map<string, seq<byte>>,
                     before: map<string, seq<byte>>, after: map<string, seq<byte>>) {
    if redirected in remote && remote[redirected] != [] then place in after && after[place] == remote[redirected]
    else (place in after <==> place in before) && (place in after ==> after[place] == before[place])
  }

  predicate Different(places: seq<string>) {
    forall a, b :: 0 <= a < b < |places| ==> places[a] != places[b]
  }

  /** With different places for different outputs, every output is returned. */
  lemma AllReturned(d: TaskDetails, dir: string, resolve: string -> string, remote: map<string, seq<byte>>,
                    before: map<string, seq<byte>>, after: map<string, seq<byte>>, i: nat)
    requires OutputArgsInRange(d) && Different(Places(resolve, OutputNames(d))) && i < |d.outputArgs|
    requires Settled(Places(resolve, OutputNames(d)), Contents(remote, Redirected(d, dir).1), before, after)
    ensures Returned(resolve(d.args[d.outputArgs[i]]), Redirected(d, dir).0[d.outputArgs[i]], remote, before, after)
  {
    var places, outs := Places(resolve, OutputNames(d)), d.outputArgs;
    var paths := Redirected(d, dir).1;
    var files := Contents(remote, paths);
    RedirectExact(d.args, outs, dir, i);
    forall k | i < k < |outs| ensures outs[k] != outs[i] {
      assert places[k] != places[i];
    }
    assert HeldExactly(places, files, after, i) && PlaceSettled(places, files, before, after, places[i]);
    assert files[i] == Bytes(Lookup(remote, paths[i]));
    assert Made(places, files, places[i]) <==> files[i] != [];
    assert LastAtPlace(places, files, i);
  }

  /**
    If the executor that had client `c`'s task finished, and what it wrote while it worked on it, whatever happened in
    between elsewhere, is what its program writes when the command has the effects `fx`, then the client, if it is
    still there, has been sent messages that leave it with the command's output and exit code and with the files the
    command left at the redirected paths, in the places of the original names. Its disk then is exactly as `Settled`
    says; if different outputs have different places, every single one is returned.
   */
  lemma FilesArrive(y: Sys, steps: seq<Step>, c: nat, disk: map<string, seq<byte>>, resolve: string -> string,
                    dir: string, fx: Effects)
    requires Initial(y) && Run(y, steps)
    requires var z := After(y, steps);
      && Expectant(z, c) && z.conns[c].job.Some? && z.conns[c].job.value.stop.Some?
      && Reports(z.conns[c].peer.details, dir, fx,
                 Written(y, steps, z.conns[c].job.value.exec, z.conns[c].job.value.idx))
    ensures var z := After(y, steps); var d := z.conns[c].peer.details; var names := OutputNames(d);
      var (r, status) := Session(EmptyDesk(names, disk, resolve), z.sv.remotes[c].chan.log);
      && r.Some? && r.value.out == Flatten(fx.stdout) && r.value.err == Flatten(fx.stderr) && status == fx.exitCode
      && Settled(Places(resolve, names), Contents(fx.disk, Redirected(d, dir).1), disk, r.value.disk)
      && (Different(Places(resolve, names)) ==> forall i :: 0 <= i < |names| ==>
            Returned(resolve(d.args[d.outputArgs[i]]), Redirected(d, dir).0[d.outputArgs[i]], fx.disk, disk,
                     r.value.disk))
  {
    var z := After(y, steps);
    var d, log, job := z.conns[c].peer.details, z.sv.remotes[c].chan.log, z.conns[c].job.value;
    RelayComplete(y, steps, c);
    OutputIsWritten(y, steps, job.exec, job.idx);
    var names, files := OutputNames(d), Contents(fx.disk, Redirected(d, dir).1);
    var places := Places(resolve, names);
    var stdio, segs :| Carries(stdio, segs, Flatten(fx.stdout), Flatten(fx.stderr), files)
                    && log == stdio + Flatten(segs) + [Completion(d, fx)];
    TransferCorrect(names, disk, resolve, stdio, segs, Flatten(fx.stdout), Flatten(fx.stderr), files,
                    Completion(d, fx));
    DeliveredSettles(disk, places, files);
    if Different(places) {
      forall i | 0 <= i < |names|
        ensures Returned(resolve(d.args[d.outputArgs[i]]), Redirected(d, dir).0[d.outputArgs[i]], fx.disk, disk,
                         Delivered(disk, places, files))
      {
        AllReturned(d, dir, resolve, fx.disk, disk, Delivered(disk, places, files), i);
      }
    }
  }

  // ---------- failures ----------

  /** Every message on a client's channel is one its desk can take. */
  lemma DeskTakes(y: Sys, c: nat, disk: map<string, seq<byte>>, resolve: string -> string)
    requires Inv(y) && c < |y.conns| && y.conns[c].peer.ClientPeer?
    ensures OutputArgsInRange(y.conns[c].peer.details)
    ensures var d := EmptyDesk(OutputNames(y.conns[c].peer.details), disk, resolve);
      forall a :: 0 <= a < |y.sv.remotes[c].chan.log| ==> Takes(d, y.sv.remotes[c].chan.log[a])
  {
    assert LocalAt(y, c);
    var d := EmptyDesk(OutputNames(y.conns[c].peer.details), disk, resolve);
    forall a | 0 <= a < |y.sv.remotes[c].chan.log| ensures Takes(d, y.sv.remotes[c].chan.log[a]) {
      ClientUnderstands(y, c, a);
    }
  }

  lemma OnlyOutputBefore(y: Sys, c: nat, a: nat)
    requires Inv(y) && c < |y.conns| && y.conns[c].job.Some? && a < |y.sv.remotes[c].chan.log| - 1
    ensures y.sv.remotes[c].chan.log[a].TaskOutput?
  {
    assert LocalAt(y, c) && JobAt(y, c);
    var e := y.conns[c].job.value.exec;
    JobOutput(y.sv.cfg, c, y.sv.remotes[c], y.conns[c], y.sv.remotes[e], y.conns[e]);
  }

  /** A client whose executor dropped with its task is told of a failure, and exits with -1: after every run,
      whatever the client's disk. */
  lemma DropReported(y: Sys, steps: seq<Step>, c: nat, disk: map<string, seq<byte>>, resolve: string -> string)
    requires Initial(y) && Run(y, steps)
    requires var z := After(y, steps);
      c < |z.conns| == |z.sv.remotes| && z.conns[c].job.Some? && z.conns[c].job.value.failed
    ensures var z := After(y, steps); var log := z.sv.remotes[c].chan.log;
      && z.conns[c].peer.ClientPeer? && OutputArgsInRange(z.conns[c].peer.details)
      && log != [] && log[|log| - 1].TaskFailed?
      && Session(EmptyDesk(OutputNames(z.conns[c].peer.details), disk, resolve), log).1 == Some(-1)
  {
    Reached(y, steps);
    DropTold(After(y, steps), c);
    DeskTakes(After(y, steps), c, disk, resolve);
    SessionEnds(EmptyDesk(OutputNames(After(y, steps).conns[c].peer.details), disk, resolve),
                After(y, steps).sv.remotes[c].chan.log);
  }

  lemma DropTold(y: Sys, c: nat)
    requires Inv(y) && c < |y.conns| && y.conns[c].job.Some? && y.conns[c].job.value.failed
    ensures var log := y.sv.remotes[c].chan.log;
      && y.conns[c].peer.ClientPeer? && log != [] && log[|log| - 1].TaskFailed?
      && forall a :: 0 <= a < |log| - 1 ==> log[a].TaskOutput?
  {
    assert JobAt(y, c);
    var e, log := y.conns[c].job.value.exec, y.sv.remotes[c].chan.log;
    JobOutput(y.sv.cfg, c, y.sv.remotes[c], y.conns[c], y.sv.remotes[e], y.conns[e]);
    forall a | 0 <= a < |log| - 1 ensures log[a].TaskOutput? {
      OnlyOutputBefore(y, c, a);
    }
  }

  /** A client whose executor refused its task, writing one failure for it, exits with -1, its disk untouched. */
  lemma RefusalReported(y: Sys, steps: seq<Step>, c: nat, disk: map<string, seq<byte>>, resolve: string -> string)
    requires Initial(y) && Run(y, steps)
    requires var z := After(y, steps);
      && Expectant(z, c) && z.conns[c].job.Some? && z.conns[c].job.value.stop.Some?
      && var ms := Written(y, steps, z.conns[c].job.value.exec, z.conns[c].job.value.idx);
         |ms| == 1 && ms[0].TaskFailed?
    ensures var z := After(y, steps);
      && OutputArgsInRange(z.conns[c].peer.details)
      && var d := EmptyDesk(OutputNames(z.conns[c].peer.details), disk, resolve);
         Session(d, z.sv.remotes[c].chan.log) == (Some(d), Some(-1))
  {
    Reached(y, steps);
    var z := After(y, steps);
    var job := z.conns[c].job.value;
    RelayComplete(y, steps, c);
    OutputIsWritten(y, steps, job.exec, job.idx);
    DeskTakes(z, c, disk, resolve);
    SessionEnds(EmptyDesk(OutputNames(z.conns[c].peer.details), disk, resolve), z.sv.remotes[c].chan.log);
  }

  // ---------- what is recorded ----------

  lemma CompletionId(y: Sys, i: nat, m: Message) returns (c: nat)
    requires Arrives(y, i, m) && m.TaskDone?
    ensures c < |y.conns| && c != i && y.sv.remotes[i].paired == Some(c) && y.conns[c].peer.ClientPeer?
    ensures m.targetId == TargetId(y.conns[c].peer.details)
  {
    c := ResultFacts(y, i, m);
    assert LocalAt(y, i) && JobAt(y, c);
    assert ResultOK(y.sv.remotes[i].chan.log, y.conns[i].read, y.conns[i].up[y.conns[i].done]);
  }

  lemma CompletionRecorded(s: State, i: nat, c: nat, m: Message, now: Nanos)
    requires i < |s.remotes| && c < |s.remotes| && c != i && s.remotes[i].paired == Some(c) && m.TaskDone?
    ensures Register(s, i, m, now).state.making
         == if m.exitCode == Some(0) then s.making[m.targetId := (m.runTime, now)] else s.making
  {
  }

  /**
    A success is recorded under the id the server will look up: in every reachable state, a completion that
    arrives carries the target id of the task its own client submitted, and handling it records exactly that id.
   */
  lemma RecordedUnderLookupKey(y: Sys, steps: seq<Step>, i: nat, m: Message, now: Nanos)
    requires Initial(y) && Run(y, steps) && m.TaskDone?
    requires var z := After(y, steps); i < |z.conns| == |z.sv.remotes| && Next(z.sv.cfg, z.conns[i]) == Some(m)
    ensures var z := After(y, steps);
      && z.sv.remotes[i].paired.Some? && z.sv.remotes[i].paired.value < |z.conns|
      && var c := z.sv.remotes[i].paired.value;
         && z.conns[c].peer.ClientPeer? && m.targetId == TargetId(z.conns[c].peer.details)
         && Register(z.sv, i, m, now).state.making
            == if m.exitCode == Some(0) then z.sv.making[TargetId(z.conns[c].peer.details) := (m.runTime, now)]
               else z.sv.making
  {
    Reached(y, steps);
    var z := After(y, steps);
    var c := CompletionId(z, i, m);
    CompletionRecorded(z.sv, i, c, m, now);
  }

  /** The completion that has arrived is the last thing its executor wrote for the task. */
  lemma CompletionIsLast(y: Sys, i: nat, m: Message) returns (c: nat)
    requires Arrives(y, i, m) && m.TaskDone?
    ensures c < |y.conns| && y.sv.remotes[i].paired == Some(c) && y.conns[c].job.Some?
    ensures var out := OutputOf(y.conns[i].up, y.conns[c].job.value.idx); out != [] && out[|out| - 1] == m
  {
    c := ResultFacts(y, i, m);
    assert JobAt(y, c);
    JobOutput(y.sv.cfg, c, y.sv.remotes[c], y.conns[c], y.sv.remotes[i], y.conns[i]);
  }

  /** If the executor's program had the effects `fx`, with exit code 0, then handling its completion records,
      under the id of the task its client submitted, the time the command ran. */
  lemma RunTimeRecorded(y: Sys, steps: seq<Step>, i: nat, m: Message, now: Nanos, dir: string, fx: Effects)
    requires Initial(y) && Run(y, steps) && m.TaskDone? && fx.exitCode == Some(0)
    requires var z := After(y, steps);
      && i < |z.conns| == |z.sv.remotes| && Next(z.sv.cfg, z.conns[i]) == Some(m)
      && var p := z.sv.remotes[i].paired;
         p.Some? && p.value < |z.conns| && z.conns[p.value].peer.ClientPeer? && z.conns[p.value].job.Some?
         && Reports(z.conns[p.value].peer.details, dir, fx, Written(y, steps, i, z.conns[p.value].job.value.idx))
    ensures var z := After(y, steps); var d := z.conns[z.sv.remotes[i].paired.value].peer.details;
      Register(z.sv, i, m, now).state.making == z.sv.making[TargetId(d) := (fx.runTime, now)]
  {
    Reached(y, steps);
    var z := After(y, steps);
    var c := CompletionIsLast(z, i, m);
    OutputIsWritten(y, steps, i, z.conns[c].job.value.idx);
    RecordedUnderLookupKey(y, steps, i, m, now);
  }
}
