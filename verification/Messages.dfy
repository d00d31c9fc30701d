/** The vocabulary shared by the three SprayCC processes: messages, task descriptions, target ids. */
module Messages {

  type byte = x: int | 0 <= x < 256

  /** Durations and instants, in nanoseconds. */
  type Nanos = nat

  const SECOND: Nanos := 1_000_000_000

  datatype Option<+T> = None | Some(value: T)

  datatype OutputType = Stdout | Stderr | File(idx: nat)

  /** `outputArgs` are indices into `args`; the source stores them as 16-bit integers. */
  datatype TaskDetails = TaskDetails(
    workingDir: string,
    cmd: string,
    args: seq<string>,
    outputArgs: seq<nat>,
    env: map<string, string>,
    priorityTask: bool)

  datatype Message =
    | YourObedientServant(accessCode: nat, userCode: nat)
    | Task(taskCode: nat, taskUser: nat, details: TaskDetails)
    | TaskOutput(outputType: OutputType, content: seq<byte>)
    | TaskFailed(errorMessage: string)
    | TaskDone(exitCode: Option<int>, targetId: string, runTime: Nanos, sendTime: Nanos)
    | CancelTask
    | PissOff
    | Dropped

  /** The messages an executor sends while it works on a task. */
  predicate IsResult(m: Message) {
    m.TaskOutput? || m.TaskFailed? || m.TaskDone?
  }

  /** The messages that end a task. */
  predicate IsTerminal(m: Message) {
    m.TaskFailed? || m.TaskDone?
  }

  function Join(parts: seq<string>): string {
    if parts == [] then ""
    else if |parts| == 1 then parts[0]
    else parts[0] + ";" + Join(parts[1..])
  }

  /** Output for a file names one of the files the task has. */
  predicate IndexInRange(d: TaskDetails, m: Message) {
    m.TaskOutput? && m.outputType.File? ==> m.outputType.idx < |d.outputArgs|
  }

  predicate OutputArgsInRange(d: TaskDetails) {
    forall k :: 0 <= k < |d.outputArgs| ==> d.outputArgs[k] < |d.args|
  }

  /** The arguments at the given positions. */
  function Selected(args: seq<string>, at: seq<nat>): seq<string> {
    seq(|at|, k requires 0 <= k < |at| => if at[k] < |args| then args[at[k]] else "")
  }

  /**
    The key under which a task's run time is remembered. Only the working directory, the
    arguments and the output indices take part. An index outside `args` is a panic in the source,
    so the server's use of this function is guarded by `OutputArgsInRange`.
   */
  function TargetId(d: TaskDetails): string {
    if d.outputArgs == [] then Join([d.workingDir] + d.args)
    else Join(Selected(d.args, d.outputArgs))
  }

  lemma {:induction false} JoinMore(parts: seq<string>, part: string)
    requires parts != []
    ensures Join(parts + [part]) == Join(parts) + ";" + part
    decreases |parts|
  {
    if |parts| == 1 {
      assert parts + [part] == [parts[0], part];
      assert [parts[0], part][1..] == [part];
    } else {
      JoinMore(parts[1..], part);
      assert (parts + [part])[1..] == parts[1..] + [part];
      assert parts[0] + ";" + (Join(parts[1..]) + ";" + part) == (parts[0] + ";" + Join(parts[1..])) + ";" + part;
    }
  }

  /** A task with one output is remembered under the name of that output, whatever its directory. */
  lemma OneOutputId(d: TaskDetails)
    requires |d.outputArgs| == 1 && d.outputArgs[0] < |d.args|
    ensures TargetId(d) == d.args[d.outputArgs[0]]
  {
  }

  /** Two such tasks share an id exactly if their outputs have the same name. */
  lemma SharedId(d: TaskDetails, e: TaskDetails)
    requires |d.outputArgs| == 1 && d.outputArgs[0] < |d.args| && |e.outputArgs| == 1 && e.outputArgs[0] < |e.args|
    ensures TargetId(d) == TargetId(e) <==> d.args[d.outputArgs[0]] == e.args[e.outputArgs[0]]
  {
    OneOutputId(d);
    OneOutputId(e);
  }

  /** One more output appends its name. */
  lemma MoreOutputsId(d: TaskDetails, k: nat)
    requires d.outputArgs != [] && OutputArgsInRange(d) && k < |d.args|
    ensures TargetId(d.(outputArgs := d.outputArgs + [k])) == TargetId(d) + ";" + d.args[k]
  {
    assert Selected(d.args, d.outputArgs + [k]) == Selected(d.args, d.outputArgs) + [d.args[k]];
    JoinMore(Selected(d.args, d.outputArgs), d.args[k]);
  }

  /** Without outputs the id is the directory, and each argument in turn is appended. */
  lemma NoOutputsId(d: TaskDetails, arg: string)
    requires d.outputArgs == []
    ensures d.args == [] ==> TargetId(d) == d.workingDir
    ensures TargetId(d.(args := d.args + [arg])) == TargetId(d) + ";" + arg
  {
    JoinMore([d.workingDir] + d.args, arg);
    assert [d.workingDir] + (d.args + [arg]) == ([d.workingDir] + d.args) + [arg];
  }
}
