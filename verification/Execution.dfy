/** The executor's program for one task: redirect the outputs, run the command, send back what it produced. */
module Execution {
  import opened Collections
  import opened Messages
  import opened Composition
  import opened Invariant
  import opened Runs
  import opened Relay
  import opened Redirection
  import opened Transfer

  /** What a command did: its standard output and error, the files it left on the executor's disk, its exit code, and
      how long it and the sending took. */
  datatype Effects = Effects(
    stdout: seq<seq<byte>>, stderr: seq<seq<byte>>, disk: map<string, seq<byte>>,
    exitCode: Option<int>, runTime: Nanos, sendTime: Nanos)

  /** The machine an executor runs on. `run` gives the effects of a command from its arguments, `None` if its process
      cannot be started; `failAt` the number of reads that succeed in the i-th output file before one fails. */
  datatype Host = Host(
    dirExists: bool, cmdExists: bool, tempDir: Option<string>,
    run: seq<string> -> Option<Effects>, failAt: nat -> Option<nat>)

  /** The arguments the command is run with and the paths of its output files. */
  function Redirected(d: TaskDetails, dir: string): (r: (seq<string>, seq<string>))
    requires OutputArgsInRange(d)
    ensures |r.0| == |d.args| && |r.1| == |d.outputArgs|
  {
    RedirectPlaces(d.args, d.outputArgs, dir, {});
    Redirect(d.args, d.outputArgs, dir, {})
  }

  function Dir(h: Host): string { if h.tempDir.Some? then h.tempDir.value else "" }

  function Completion(d: TaskDetails, fx: Effects): Message {
    TaskDone(fx.exitCode, TargetId(d), fx.runTime, fx.sendTime)
  }

  /** `ms` carries all that the command produced, the files being those at the redirected paths, and ends in the
      completion under the id of the task as submitted. */
  ghost predicate Reports(d: TaskDetails, dir: string, fx: Effects, ms: seq<Message>) {
    && OutputArgsInRange(d)
    && exists stdio, segs ::
         && Carries(stdio, segs, Flatten(fx.stdout), Flatten(fx.stderr), Contents(fx.disk, Redirected(d, dir).1))
         && ms == stdio + Flatten(segs) + [Completion(d, fx)]
  }

  /** What the executor of the composed system may write for a task. */
  predicate Emittable(d: TaskDetails, ms: seq<Message>) {
    forall a :: 0 <= a < |ms| ==> EmittableAt(d, ms, a)
  }

  predicate EmittableAt(d: TaskDetails, ms: seq<Message>, a: nat)
    requires a < |ms|
  {
    && IsResult(ms[a]) && IndexInRange(d, ms[a])
    && (IsTerminal(ms[a]) ==> a == |ms| - 1)
    && (ms[a].TaskFailed? ==> a == 0)
    && (ms[a].TaskDone? ==> ms[a].targetId == TargetId(d))
  }

  lemma {:induction false} JoinedInRange(d: TaskDetails, segs: seq<seq<Message>>)
    requires |segs| <= |d.outputArgs| && Numbered(segs)
    ensures forall a :: 0 <= a < |Flatten(segs)| ==> Flatten(segs)[a].TaskOutput? && IndexInRange(d, Flatten(segs)[a])
    decreases |segs|
  {
    if segs == [] {
    } else {
      var n := |segs| - 1;
      JoinedInRange(d, segs[..n]);
      assert Blocks(n, segs[n]);
    }
  }

  lemma OutputIsEmittable(d: TaskDetails, stdio: seq<Message>, segs: seq<seq<Message>>, last: seq<Message>)
    requires Stdio(stdio) && |segs| <= |d.outputArgs| && Numbered(segs)
    requires last == [] || (|last| == 1 && last[0].TaskDone? && last[0].targetId == TargetId(d))
    ensures Emittable(d, stdio + Flatten(segs) + last)
  {
    JoinedInRange(d, segs);
    var ms := stdio + Flatten(segs) + last;
    forall a | 0 <= a < |ms| ensures EmittableAt(d, ms, a) {
      if a < |stdio| {
        assert ms[a] == stdio[a];
      } else if a < |stdio + Flatten(segs)| {
        assert ms[a] == Flatten(segs)[a - |stdio|];
      }
    }
  }

  /**
    All an executor does for a task. `alive` is false if it gives up: the process cannot be started or a file
    cannot be read to its end.
   */
  method HandleNewTask(d: TaskDetails, h: Host) returns (ms: seq<Message>, alive: bool)
    requires OutputArgsInRange(d)
    ensures Emittable(d, ms)
    ensures !h.dirExists || !h.cmdExists || (d.outputArgs != [] && h.tempDir.None?) ==>
      alive && |ms| == 1 && ms[0].TaskFailed?
    ensures h.dirExists && h.cmdExists && (d.outputArgs == [] || h.tempDir.Some?) ==>
      var fx := h.run(Redirected(d, Dir(h)).0);
      && (fx.None? ==> !alive && ms == [])
      && (alive ==> fx.Some? && Reports(d, Dir(h), fx.value, ms))
      && (fx.Some? && (forall i: nat :: h.failAt(i).None?) ==> alive)
  {
    var id := TargetId(d);
    if !h.dirExists {
      return [TaskFailed("Execution directory does not exist")], true;
    }
    if !h.cmdExists {
      return [TaskFailed("Command does not exist")], true;
    }
    var args := new string[|d.args|](i requires 0 <= i < |d.args| => d.args[i]);
    assert args[..] == d.args;
    var paths := RedirectOutputs(args, d.outputArgs, h.tempDir);
    if paths.None? {
      return [TaskFailed("Fatal error: unable to create temporary working directory")], true;
    }
    assert (args[..], paths.value) == Redirected(d, Dir(h));
    var fx := h.run(args[..]);
    if fx.None? {
      return [], false;
    }
    var done := TaskDone(fx.value.exitCode, id, fx.value.runTime, fx.value.sendTime);
    ghost var stdio, segs;
    ms, alive, stdio, segs := RunTask(fx.value.stdout, fx.value.stderr, paths.value, fx.value.disk, h.failAt, done);
    OutputIsEmittable(d, stdio, segs, if alive then [done] else []);
  }

  // ---------- the composed system's executor can do it ----------

  function Emissions(i: nat, ms: seq<Message>): seq<Step> {
    seq(|ms|, a requires 0 <= a < |ms| => ExecEmit(i, ms[a]))
  }

  function Tagged(ms: seq<Message>, n: nat): seq<Up> {
    seq(|ms|, a requires 0 <= a < |ms| => Up(ms[a], Some(n)))
  }

  /** A busy executor can write, message by message, whatever its program writes for the task. */
  lemma {:induction false} EmitAll(y: Sys, i: nat, ms: seq<Message>)
    requires i < |y.conns| == |y.sv.remotes| && y.conns[i].peer.ExecPeer? && y.conns[i].peer.phase.Busy?
    requires Emittable(y.conns[i].peer.phase.work, ms)
    requires ms != [] && ms[0].TaskFailed? ==> !LastIs(y.conns[i].up, y.conns[i].peer.phase.job)
    ensures Run(y, Emissions(i, ms))
    ensures var z := After(y, Emissions(i, ms));
      && z.sv == y.sv && |z.conns| == |y.conns|
      && z.conns[i].up == y.conns[i].up + Tagged(ms, y.conns[i].peer.phase.job)
    decreases |ms|
  {
    var d, n := y.conns[i].peer.phase.work, y.conns[i].peer.phase.job;
    if ms == [] {
      assert Tagged(ms, n) == [];
    } else {
      assert EmittableAt(d, ms, 0);
      var st, rest := ExecEmit(i, ms[0]), ms[1..];
      assert Emissions(i, ms)[0] == st && Emissions(i, ms)[1..] == Emissions(i, rest);
      assert Tagged(ms, n) == [Up(ms[0], Some(n))] + Tagged(rest, n);
      var z := Apply(y, st);
      if IsTerminal(ms[0]) {
        assert rest == [] && Emissions(i, rest) == [] && Tagged(rest, n) == [];
      } else {
        forall a | 0 <= a < |rest| ensures EmittableAt(d, rest, a) {
          assert EmittableAt(d, ms, a + 1);
        }
        assert rest != [] ==> EmittableAt(d, ms, 1);
        EmitAll(z, i, rest);
      }
    }
  }

  // ---------- what an executor writes along a run ----------

  /** What connection `e` writes in a step for entry `n` of its log. */
  function WritesFor(y: Sys, st: Step, e: nat, n: nat): seq<Message> {
    if st.ExecEmit? && st.i == e && e < |y.conns| && MayEmit(y.conns[e], st.msg) && y.conns[e].peer.phase.job == n
    then [st.msg] else []
  }

  /** All that connection `e` writes along a run for entry `n` of its log, whatever happens in between. */
  ghost function Written(y: Sys, steps: seq<Step>, e: nat, n: nat): seq<Message>
    requires Run(y, steps)
    decreases |steps|
  {
    if steps == [] then [] else WritesFor(y, steps[0], e, n) + Written(Apply(y, steps[0]), steps[1..], e, n)
  }

  /** The output of entry `n`, of a connection that need not be there yet. */
  function OutputAt(y: Sys, e: nat, n: nat): seq<Message> {
    if e < |y.conns| then OutputOf(y.conns[e].up, n) else []
  }

  lemma OutputMore(up: seq<Up>, u: Up, n: nat)
    ensures OutputOf(up + [u], n) == OutputOf(up, n) + (if u.tag == Some(n) then [u.msg] else [])
  {
    assert (up + [u])[..|up|] == up;
  }

  lemma StepWrites(y: Sys, st: Step, e: nat, n: nat)
    requires Inv(y) && Enabled(y, st)
    ensures OutputAt(Apply(y, st), e, n) == OutputAt(y, e, n) + WritesFor(y, st, e, n)
  {
    var z := Apply(y, st);
    if st.ExecEmit? && st.i == e {
      OutputMore(y.conns[e].up, Up(st.msg, Some(y.conns[e].peer.phase.job)), n);
    } else if st.PeerStart? && st.i == e {
      assert LocalAt(y, e);
      OutputMore([], Up(Opening(y.conns[e].peer), None), n);
    } else if st.PeerStart? || st.ExecEmit? || st.HandlerForward? {
    } else {
      WritesUnchanged(y, st);
      assert e < |y.conns| ==> z.conns[e].up == y.conns[e].up;
      assert e == |y.conns| && st.Accept? ==> z.conns[e].up == [];
    }
  }

  lemma {:induction false} RunWrites(y: Sys, steps: seq<Step>, e: nat, n: nat)
    requires Inv(y) && Run(y, steps)
    ensures OutputAt(After(y, steps), e, n) == OutputAt(y, e, n) + Written(y, steps, e, n)
    decreases |steps|
  {
    if steps == [] {
    } else {
      StepWrites(y, steps[0], e, n);
      StepKeeps(y, steps[0]);
      RunWrites(Apply(y, steps[0]), steps[1..], e, n);
      Associates(OutputAt(y, e, n), WritesFor(y, steps[0], e, n), Written(Apply(y, steps[0]), steps[1..], e, n));
    }
  }

  /** In every run, the output of a task is exactly what its executor wrote while it worked on that task, whatever
      steps came in between. */
  lemma OutputIsWritten(y: Sys, steps: seq<Step>, e: nat, n: nat)
    requires Initial(y) && Run(y, steps)
    ensures OutputAt(After(y, steps), e, n) == Written(y, steps, e, n)
  {
    InitialInv(y);
    RunWrites(y, steps, e, n);
  }
}
