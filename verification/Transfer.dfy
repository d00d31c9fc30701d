/** How a task's output travels: what the executor writes for one task and what the client makes of it. */
module Transfer {
  import opened Collections
  import opened Messages

  const BLOCK: nat := 65536

  // ---------- the executor ----------

  /** The bytes of the output messages of one kind, in order. */
  function Content(ms: seq<Message>, ty: OutputType): seq<byte> {
    if ms == [] then []
    else
      var last := ms[|ms| - 1];
      Content(ms[..|ms| - 1], ty) + (if last.TaskOutput? && last.outputType == ty then last.content else [])
  }

  /** Non-empty blocks of file `i`, in order. */
  predicate Blocks(i: nat, ms: seq<Message>) {
    forall a :: 0 <= a < |ms| ==> ms[a].TaskOutput? && ms[a].outputType == File(i) && 1 <= |ms[a].content| <= 65536
  }

  predicate Stdio(ms: seq<Message>) {
    forall a :: 0 <= a < |ms| ==> ms[a].TaskOutput? && (ms[a].outputType == Stdout || ms[a].outputType == Stderr)
  }

  /**
    Reads a generated file and sends it in blocks, of whatever size up to the limit each read returns. A file that
    cannot be opened (`None`) is skipped. `failAt` is how many reads succeed before one fails, if one does.
   */
  method SendOutputFile(i: nat, file: Option<seq<byte>>, failAt: Option<nat>) returns (ms: seq<Message>, ok: bool)
    ensures Blocks(i, ms)
    ensures file.None? ==> ms == [] && ok
    ensures file.Some? ==> if ok then Content(ms, File(i)) == file.value else Content(ms, File(i)) <= file.value
    ensures failAt.None? ==> ok
  {
    ms, ok := [], true;
    if file.None? {
      return;
    }
    var pos, done := 0, 0;
    while true
      invariant 0 <= pos <= |file.value| && Blocks(i, ms) && Content(ms, File(i)) == file.value[..pos]
      decreases |file.value| - pos
    {
      if failAt == Some(done) {
        return ms, false;
      }
      done := done + 1;
      if pos == |file.value| {
        assert file.value[..pos] == file.value;
        return;
      }
      var n :| 1 <= n <= BLOCK && pos + n <= |file.value|;
      var m := TaskOutput(File(i), file.value[pos..pos + n]);
      ContentStep(ms, File(i), file.value[pos..pos + n]);
      assert file.value[..pos + n] == file.value[..pos] + file.value[pos..pos + n];
      ms := ms + [m];
      pos := pos + n;
    }
  }

  /** What the client should find in file `i`: nothing if the executor could not open it. */
  function Bytes(file: Option<seq<byte>>): seq<byte> { if file.Some? then file.value else [] }

  /** Opening a file. */
  function Lookup(disk: map<string, seq<byte>>, path: string): Option<seq<byte>> {
    if path in disk then Some(disk[path]) else None
  }

  /** What is sent of the files at the given paths. */
  function Contents(disk: map<string, seq<byte>>, paths: seq<string>): (files: seq<seq<byte>>)
    ensures |files| == |paths|
  {
    seq(|paths|, i requires 0 <= i < |paths| => Bytes(Lookup(disk, paths[i])))
  }

  /** Messages that carry exactly the given output: standard streams first, then the files in the order of their
      indices. */
  predicate Carries(stdio: seq<Message>, segs: seq<seq<Message>>,
                    stdout: seq<byte>, stderr: seq<byte>, files: seq<seq<byte>>) {
    && Stdio(stdio) && Content(stdio, Stdout) == stdout && Content(stdio, Stderr) == stderr
    && |segs| == |files| && forall i :: 0 <= i < |segs| ==> SegmentOf(i, segs[i], files[i])
  }

  /** `seg` is blocks of file `i` that make up `file`. */
  predicate SegmentOf(i: nat, seg: seq<Message>, file: seq<byte>) {
    Blocks(i, seg) && Content(seg, File(i)) == file
  }

  predicate Piped(ms: seq<Message>, stdout: seq<seq<byte>>, stderr: seq<seq<byte>>) {
    Stdio(ms) && Content(ms, Stdout) == Flatten(stdout) && Content(ms, Stderr) == Flatten(stderr)
  }

  lemma PipedMore(ms: seq<Message>, stdout: seq<seq<byte>>, o: nat, stderr: seq<seq<byte>>, e: nat)
    requires o <= |stdout| && e <= |stderr| && Piped(ms, stdout[..o], stderr[..e])
    ensures o < |stdout| ==> Piped(ms + [TaskOutput(Stdout, stdout[o])], stdout[..o + 1], stderr[..e])
    ensures e < |stderr| ==> Piped(ms + [TaskOutput(Stderr, stderr[e])], stdout[..o], stderr[..e + 1])
  {
    if o < |stdout| {
      ContentStep(ms, Stdout, stdout[o]);
      FlattenStep(stdout, o);
    }
    if e < |stderr| {
      ContentStep(ms, Stderr, stderr[e]);
      FlattenStep(stderr, e);
    }
  }

  /** Reads both pipes to the end, in any interleaving. */
  method RelayPipes(stdout: seq<seq<byte>>, stderr: seq<seq<byte>>) returns (ms: seq<Message>)
    ensures Piped(ms, stdout, stderr)
  {
    ms := [];
    var o, e := 0, 0;
    var stdoutDone, stderrDone := false, false;
    while !stdoutDone || !stderrDone
      invariant 0 <= o <= |stdout| && 0 <= e <= |stderr| && Piped(ms, stdout[..o], stderr[..e])
      invariant stdoutDone ==> o == |stdout|
      invariant stderrDone ==> e == |stderr|
      decreases |stdout| - o + |stderr| - e, (if stdoutDone then 0 else 1) + (if stderrDone then 0 else 1)
    {
      var fromStdout: bool :| (fromStdout ==> !stdoutDone) && (!fromStdout ==> !stderrDone);
      if fromStdout {
        if o == |stdout| {
          stdoutDone := true;
        } else {
          PipedMore(ms, stdout, o, stderr, e);
          ms := ms + [TaskOutput(Stdout, stdout[o])];
          o := o + 1;
        }
      } else {
        if e == |stderr| {
          stderrDone := true;
        } else {
          PipedMore(ms, stdout, o, stderr, e);
          ms := ms + [TaskOutput(Stderr, stderr[e])];
          e := e + 1;
        }
      }
    }
    assert stdout[..o] == stdout && stderr[..e] == stderr;
  }

  lemma ContentStep(ms: seq<Message>, ty: OutputType, data: seq<byte>)
    ensures Content(ms + [TaskOutput(ty, data)], ty) == Content(ms, ty) + data
    ensures forall other :: other != ty ==> Content(ms + [TaskOutput(ty, data)], other) == Content(ms, other)
  {
    var m := TaskOutput(ty, data);
    assert (ms + [m])[..|ms|] == ms;
    forall other | other != ty ensures Content(ms + [m], other) == Content(ms, other) {
      assert Content(ms + [m], other) == Content(ms, other) + [];
    }
  }

  /** Sends the files at `paths` on the executor's disk, one after the other. If reading the i-th fails, after
      `failAt(i)` reads, the rest is not sent. */
  method SendFiles(paths: seq<string>, disk: map<string, seq<byte>>, failAt: nat -> Option<nat>)
    returns (ms: seq<Message>, ok: bool, ghost segs: seq<seq<Message>>)
    ensures ms == Flatten(segs) && |segs| <= |paths| && Numbered(segs)
    ensures ok ==> |segs| == |paths| && SentSoFar(segs, disk, paths)
    ensures !ok ==> exists i: nat :: failAt(i).Some?
  {
    ms, segs := [], [];
    for i := 0 to |paths|
      invariant |segs| == i && ms == Flatten(segs) && SentSoFar(segs, disk, paths)
    {
      var seg;
      seg, ok := SendOutputFile(i, Lookup(disk, paths[i]), failAt(i));
      SentIsNumbered(segs, seg, disk, paths);
      FlattenMore(segs, seg);
      if ok {
        SentMore(segs, seg, disk, paths);
      }
      ms := ms + seg;
      segs := segs + [seg];
      if !ok {
        assert failAt(i).Some?;
        return;
      }
    }
    ok := true;
    SentIsNumbered(segs, [], disk, paths);
  }

  /** All an executor writes for a task that ran: its output and its files, then its completion, which it never
      writes if it gave up on a file. */
  method RunTask(stdout: seq<seq<byte>>, stderr: seq<seq<byte>>, paths: seq<string>, disk: map<string, seq<byte>>,
                 failAt: nat -> Option<nat>, done: Message)
    returns (ms: seq<Message>, ok: bool, ghost stdio: seq<Message>, ghost segs: seq<seq<Message>>)
    requires done.TaskDone?
    ensures ms == stdio + Flatten(segs) + (if ok then [done] else [])
    ensures ok ==> Carries(stdio, segs, Flatten(stdout), Flatten(stderr), Contents(disk, paths))
    ensures Stdio(stdio) && |segs| <= |paths| && Numbered(segs)
    ensures !ok ==> exists i: nat :: failAt(i).Some?
  {
    var streams := RelayPipes(stdout, stderr);
    var files;
    files, ok, segs := SendFiles(paths, disk, failAt);
    stdio := streams;
    ms := streams + files + (if ok then [done] else []);
    if ok {
      AllSent(segs, disk, paths);
    }
  }

  /** The i-th segment is blocks of the i-th file. */
  predicate Numbered(segs: seq<seq<Message>>) {
    forall i :: 0 <= i < |segs| ==> Blocks(i, segs[i])
  }

  predicate SentSoFar(segs: seq<seq<Message>>, disk: map<string, seq<byte>>, paths: seq<string>) {
    |segs| <= |paths| && forall k :: 0 <= k < |segs| ==> SegmentOf(k, segs[k], Bytes(Lookup(disk, paths[k])))
  }

  lemma SentMore(segs: seq<seq<Message>>, seg: seq<Message>, disk: map<string, seq<byte>>, paths: seq<string>)
    requires SentSoFar(segs, disk, paths) && |segs| < |paths|
    requires SegmentOf(|segs|, seg, Bytes(Lookup(disk, paths[|segs|])))
    ensures SentSoFar(segs + [seg], disk, paths)
  {
    var all := segs + [seg];
    forall k | 0 <= k < |all| ensures SegmentOf(k, all[k], Bytes(Lookup(disk, paths[k]))) {
      if k < |segs| {
        assert all[k] == segs[k];
      }
    }
  }

  lemma SentIsNumbered(segs: seq<seq<Message>>, seg: seq<Message>, disk: map<string, seq<byte>>, paths: seq<string>)
    requires SentSoFar(segs, disk, paths) && Blocks(|segs|, seg)
    ensures Numbered(segs) && Numbered(segs + [seg])
  {
    forall k | 0 <= k < |segs| ensures Blocks(k, segs[k]) {
      assert SegmentOf(k, segs[k], Bytes(Lookup(disk, paths[k])));
    }
  }

  lemma AllSent(segs: seq<seq<Message>>, disk: map<string, seq<byte>>, paths: seq<string>)
    requires SentSoFar(segs, disk, paths) && |segs| == |paths|
    ensures forall i :: 0 <= i < |segs| ==> SegmentOf(i, segs[i], Contents(disk, paths)[i])
  {
    forall i | 0 <= i < |segs| ensures SegmentOf(i, segs[i], Contents(disk, paths)[i]) {
      assert SegmentOf(i, segs[i], Bytes(Lookup(disk, paths[i])));
    }
  }

  // ---------- the client ----------

  /** A file not created yet, by its name as given; one being written, by its place on the disk; one closed. */
  datatype LazyFile = Named(name: string) | Opened(place: string, pos: nat) | Shut

  /** The client's files, its disk by places, and its standard streams. `resolve` finds the place a name stands for:
      different names, such as `a.o` and `./a.o`, may stand for one place. */
  datatype Desk = Desk(
    files: seq<LazyFile>, disk: map<string, seq<byte>>, out: seq<byte>, err: seq<byte>, resolve: string -> string)

  /** The places the names stand for. */
  function Places(resolve: string -> string, names: seq<string>): (places: seq<string>)
    ensures |places| == |names|
  {
    seq(|names|, i requires 0 <= i < |names| => resolve(names[i]))
  }

  /** Overwrite from position `pos` on, filling a gap with zeros. */
  function Splice(was: seq<byte>, pos: nat, data: seq<byte>): seq<byte> {
    if pos <= |was| then
      was[..pos] + data + (if pos + |data| <= |was| then was[pos + |data|..] else [])
    else was + seq(pos - |was|, _ => 0) + data
  }

  /** Create the file, empty, the first time something is written to it. */
  function AsFile(d: Desk, i: nat): Desk
    requires i < |d.files|
  {
    if d.files[i].Named? then
      var place := d.resolve(d.files[i].name);
      d.(files := d.files[i := Opened(place, 0)], disk := d.disk[place := []])
    else d
  }

  function WriteTo(d: Desk, i: nat, data: seq<byte>): Desk
    requires i < |d.files| && !d.files[i].Shut?
  {
    var d1 := AsFile(d, i);
    var f := d1.files[i];
    d1.(files := d1.files[i := f.(pos := f.pos + |data|)],
        disk := d1.disk[f.place := Splice(if f.place in d1.disk then d1.disk[f.place] else [], f.pos, data)])
  }

  /** The client's reaction to a message; `None` stands for a panic. */
  function Receive(d: Desk, m: Message): Option<Desk> {
    match m
    case TaskOutput(Stdout, data) => Some(d.(out := d.out + data))
    case TaskOutput(Stderr, data) => Some(d.(err := d.err + data))
    case TaskOutput(File(i), data) => if i < |d.files| && !d.files[i].Shut? then Some(WriteTo(d, i, data)) else None
    case TaskFailed(_) => Some(d)
    case TaskDone(_, _, _, _) => Some(d)
    case _ => None
  }

  /** The exit status a message ends the client with, if it does. */
  function Status(m: Message): Option<int> {
    if m.TaskFailed? then Some(-1) else if m.TaskDone? then m.exitCode else None
  }

  /** The client's whole session on the messages its connection delivers. */
  function Session(d: Desk, ms: seq<Message>): (Option<Desk>, Option<int>)
    decreases |ms|
  {
    if ms == [] then (Some(d), None)
    else
      match Receive(d, ms[0])
      case None => (None, None)
      case Some(d1) => if Status(ms[0]).Some? then (Some(d1), Status(ms[0])) else Session(d1, ms[1..])
  }

  /** The client process, with its files opened lazily. */
  class Client {
    var files: seq<LazyFile>
    var disk: map<string, seq<byte>>
    var out: seq<byte>
    var err: seq<byte>
    const resolve: string -> string

    ghost function View(): Desk
      reads this
    {
      Desk(files, disk, out, err, resolve)
    }

    constructor (names: seq<string>, disk: map<string, seq<byte>>, resolve: string -> string)
      ensures View() == EmptyDesk(names, disk, resolve)
    {
      this.resolve := resolve;
      files := seq(|names|, i requires 0 <= i < |names| => Named(names[i]));
      this.disk, out, err := disk, [], [];
    }

    method WriteOutput(ty: OutputType, data: seq<byte>) returns (ok: bool)
      modifies this
      ensures ok == Receive(old(View()), TaskOutput(ty, data)).Some?
      ensures View() == if ok then Receive(old(View()), TaskOutput(ty, data)).value else old(View())
    {
      ok := true;
      match ty
      case Stdout => out := out + data;
      case Stderr => err := err + data;
      case File(i) =>
        if i >= |files| || files[i].Shut? {
          return false;
        }
        if files[i].Named? {
          var place := resolve(files[i].name);
          disk := disk[place := []];
          files := files[i := Opened(place, 0)];
        }
        var f := files[i];
        disk := disk[f.place := Splice(if f.place in disk then disk[f.place] else [], f.pos, data)];
        files := files[i := f.(pos := f.pos + |data|)];
    }

    method HandleMsg(m: Message) returns (ok: bool, status: Option<int>)
      modifies this
      ensures ok == Receive(old(View()), m).Some?
      ensures View() == if ok then Receive(old(View()), m).value else old(View())
      ensures ok ==> status == Status(m)
    {
      status := None;
      match m
      case TaskOutput(ty, data) => ok := WriteOutput(ty, data);
      case TaskFailed(_) => ok, status := true, Some(-1);
      case TaskDone(code, _, _, _) => ok, status := true, code;
      case _ => ok := false;
    }

    /** Handle messages until one gives a status or the connection closes. */
    method Wait(ms: seq<Message>) returns (ok: bool, status: Option<int>)
      modifies this
      ensures var s := Session(old(View()), ms); ok == s.0.Some? && (ok ==> View() == s.0.value && status == s.1)
    {
      ok, status := true, None;
      var k := 0;
      assert ms[0..] == ms;
      while ok && status == None && k < |ms|
        invariant 0 <= k <= |ms|
        invariant ok && status == None ==> Session(View(), ms[k..]) == Session(old(View()), ms)
        invariant ok && status.Some? ==> Session(old(View()), ms) == (Some(View()), status)
        invariant !ok ==> Session(old(View()), ms).0 == None
      {
        assert ms[k..][0] == ms[k] && ms[k..][1..] == ms[k + 1..];
        ok, status := HandleMsg(ms[k]);
        k := k + 1;
      }
    }
  }

  function EmptyDesk(names: seq<string>, disk: map<string, seq<byte>>, resolve: string -> string): Desk {
    Desk(seq(|names|, i requires 0 <= i < |names| => Named(names[i])), disk, [], [], resolve)
  }

  // ---------- from one to the other ----------

  /** The simple form of the result: each non-empty file replaces whatever its place held, in order. */
  function Delivered(disk: map<string, seq<byte>>, places: seq<string>, files: seq<seq<byte>>): map<string, seq<byte>>
    requires |places| == |files|
  {
    if files == [] then disk
    else
      var n := |files| - 1;
      var d := Delivered(disk, places[..n], files[..n]);
      if files[n] == [] then d else d[places[n] := files[n]]
  }

  function ReceiveAll(d: Desk, ms: seq<Message>): Option<Desk> {
    if ms == [] then Some(d)
    else
      match ReceiveAll(d, ms[..|ms| - 1])
      case None => None
      case Some(d1) => Receive(d1, ms[|ms| - 1])
  }

  lemma {:induction false} ReceiveAdds(d: Desk, ms: seq<Message>, ns: seq<Message>)
    requires ReceiveAll(d, ms).Some?
    ensures ReceiveAll(d, ms + ns) == ReceiveAll(ReceiveAll(d, ms).value, ns)
    decreases |ns|
  {
    if ns == [] {
      assert ms + ns == ms;
    } else {
      ReceiveAdds(d, ms, ns[..|ns| - 1]);
      assert (ms + ns)[..|ms + ns| - 1] == ms + ns[..|ns| - 1];
    }
  }

  lemma {:induction false} ReceiveStdio(d: Desk, ms: seq<Message>)
    requires Stdio(ms)
    ensures ReceiveAll(d, ms) == Some(d.(out := d.out + Content(ms, Stdout), err := d.err + Content(ms, Stderr)))
    decreases |ms|
  {
    assert d.out + [] == d.out && d.err + [] == d.err;
    if ms == [] {
    } else {
      var init, m := ms[..|ms| - 1], ms[|ms| - 1];
      ReceiveStdio(d, init);
      var o, e := Content(init, Stdout), Content(init, Stderr);
      assert (d.out + o) + m.content == d.out + (o + m.content) && o + [] == o;
      assert (d.err + e) + m.content == d.err + (e + m.content) && e + [] == e;
    }
  }

  /** The desk when `data` of file `i` has come in. */
  function Received(d: Desk, i: nat, data: seq<byte>): Desk
    requires i < |d.files| && d.files[i].Named?
  {
    if data == [] then d
    else
      var place := d.resolve(d.files[i].name);
      d.(files := d.files[i := Opened(place, |data|)], disk := d.disk[place := data])
  }

  lemma OneBlock(d: Desk, i: nat, was: seq<byte>, data: seq<byte>)
    requires i < |d.files| && d.files[i].Named? && data != []
    ensures i < |Received(d, i, was).files| && !Received(d, i, was).files[i].Shut?
    ensures WriteTo(Received(d, i, was), i, data) == Received(d, i, was + data)
  {
    var place, r := d.resolve(d.files[i].name), AsFile(Received(d, i, was), i);
    assert r.files == d.files[i := Opened(place, |was|)] && r.disk == d.disk[place := was];
    assert Splice(was, |was|, data) == was + data by {
      assert was[..|was|] == was;
    }
    assert r.files[i := Opened(place, |was + data|)] == d.files[i := Opened(place, |was + data|)];
    assert r.disk[place := was + data] == d.disk[place := was + data];
  }

  lemma ReceiveLast(d: Desk, ms: seq<Message>)
    requires ms != [] && ReceiveAll(d, ms[..|ms| - 1]).Some?
    ensures ReceiveAll(d, ms) == Receive(ReceiveAll(d, ms[..|ms| - 1]).value, ms[|ms| - 1])
  {
  }

  /** The blocks of one file, received in a row, make up the file; no blocks leave no trace. */
  lemma {:induction false} ReceiveBlocks(d: Desk, i: nat, ms: seq<Message>)
    requires Blocks(i, ms) && i < |d.files| && d.files[i].Named?
    ensures ReceiveAll(d, ms) == Some(Received(d, i, Content(ms, File(i))))
    ensures ms == [] <==> Content(ms, File(i)) == []
    decreases |ms|
  {
    if ms == [] {
    } else {
      var init, m := ms[..|ms| - 1], ms[|ms| - 1];
      ReceiveBlocks(d, i, init);
      ReceiveLast(d, ms);
      OneBlock(d, i, Content(init, File(i)), m.content);
      assert Content(ms, File(i)) == Content(init, File(i)) + m.content;
    }
  }

  /** The desk `r` after the first `n` files were received on an empty one. */
  predicate Filled(r: Desk, names: seq<string>, disk: map<string, seq<byte>>, out: seq<byte>, err: seq<byte>,
                   files: seq<seq<byte>>)
    requires |files| <= |names|
  {
    && |r.files| == |names| && r.out == out && r.err == err
    && r.disk == Delivered(disk, Places(r.resolve, names)[..|files|], files)
    && forall k :: |files| <= k < |names| ==> r.files[k] == Named(names[k])
  }

  /** One more file. */
  lemma FillMore(r: Desk, names: seq<string>, disk: map<string, seq<byte>>, out: seq<byte>, err: seq<byte>,
                 files: seq<seq<byte>>, seg: seq<Message>)
    requires |files| < |names| && Filled(r, names, disk, out, err, files) && Blocks(|files|, seg)
    ensures var r' := ReceiveAll(r, seg);
      r'.Some? && r'.value.resolve == r.resolve
      && Filled(r'.value, names, disk, out, err, files + [Content(seg, File(|files|))])
  {
    var n := |files|;
    ReceiveBlocks(r, n, seg);
    var places, more := Places(r.resolve, names), files + [Content(seg, File(n))];
    assert places[..n + 1][..n] == places[..n] && more[..n] == files;
  }

  lemma {:induction false} ReceiveSegments(names: seq<string>, disk: map<string, seq<byte>>,
                                           resolve: string -> string, out: seq<byte>, err: seq<byte>,
                                           segs: seq<seq<Message>>, files: seq<seq<byte>>)
    requires |segs| == |files| <= |names| && forall i :: 0 <= i < |segs| ==> SegmentOf(i, segs[i], files[i])
    ensures var d := EmptyDesk(names, disk, resolve).(out := out, err := err); var r := ReceiveAll(d, Flatten(segs));
      r.Some? && r.value.resolve == resolve && Filled(r.value, names, disk, out, err, files)
    decreases |segs|
  {
    var d := EmptyDesk(names, disk, resolve).(out := out, err := err);
    if segs == [] {
    } else {
      var n := |segs| - 1;
      var init, f := segs[..n], files[..n];
      forall i | 0 <= i < n ensures SegmentOf(i, init[i], f[i]) {
        assert SegmentOf(i, segs[i], files[i]);
      }
      ReceiveSegments(names, disk, resolve, out, err, init, f);
      assert SegmentOf(n, segs[n], files[n]) && Flatten(segs) == Flatten(init) + segs[n];
      ReceiveAdds(d, Flatten(init), segs[n]);
      FillMore(ReceiveAll(d, Flatten(init)).value, names, disk, out, err, f, segs[n]);
      assert f + [files[n]] == files;
    }
  }

  lemma {:induction false} SessionIsReceive(d: Desk, ms: seq<Message>, done: Message)
    requires (forall a :: 0 <= a < |ms| ==> Status(ms[a]).None?) && ReceiveAll(d, ms).Some? && IsTerminal(done)
    ensures Session(d, ms + [done]) == (ReceiveAll(d, ms), Status(done))
    decreases |ms|
  {
    if ms == [] {
      assert (ms + [done])[1..] == [];
    } else {
      assert ms == [ms[0]] + ms[1..];
      assert [ms[0]][..0] == [];
      ReceiveHead(d, ms);
      SessionIsReceive(Receive(d, ms[0]).value, ms[1..], done);
      assert (ms + [done])[1..] == ms[1..] + [done];
    }
  }

  /** Output the desk can take: none of its files is shut, and the index, if any, is in range. */
  predicate Takes(d: Desk, m: Message) {
    && (forall i :: 0 <= i < |d.files| ==> !d.files[i].Shut?)
    && (m.TaskOutput? && m.outputType.File? ==> m.outputType.idx < |d.files|)
    && (m.TaskOutput? || m.TaskFailed? || m.TaskDone?)
  }

  lemma ReceiveTakes(d: Desk, m: Message, n: Message)
    requires Takes(d, m) && Takes(d, n)
    ensures Receive(d, m).Some? && Takes(Receive(d, m).value, n) && |Receive(d, m).value.files| == |d.files|
  {
  }

  /** How a session ends: with the status of the first message that has one, which is -1 for a failure and the
      exit code, if there is one, for a completion; and without, if there is no such message. */
  lemma {:induction false} SessionEnds(d: Desk, ms: seq<Message>)
    requires forall a :: 0 <= a < |ms| ==> Takes(d, ms[a])
    ensures var (r, status) := Session(d, ms);
      && r.Some?
      && (status.None? <==>
            forall a :: 0 <= a < |ms| ==> ms[a].TaskOutput? || (ms[a].TaskDone? && ms[a].exitCode.None?))
      && (ms != [] && (forall a :: 0 <= a < |ms| - 1 ==> ms[a].TaskOutput?) ==>
            var last := ms[|ms| - 1];
            && (last.TaskFailed? ==> status == Some(-1))
            && (last.TaskDone? ==> status == last.exitCode))
    decreases |ms|
  {
    if ms == [] {
    } else {
      var rest := ms[1..];
      forall a | 0 <= a < |rest| ensures rest[a] == ms[a + 1] && Takes(Receive(d, ms[0]).value, rest[a]) {
        ReceiveTakes(d, ms[0], ms[a + 1]);
      }
      ReceiveTakes(d, ms[0], ms[0]);
      SessionEnds(Receive(d, ms[0]).value, rest);
    }
  }

  /** Once it has a status, the client looks at nothing that comes after. */
  lemma {:induction false} SessionStops(d: Desk, ms: seq<Message>, more: seq<Message>)
    requires Session(d, ms).1.Some?
    ensures Session(d, ms + more) == Session(d, ms)
    decreases |ms|
  {
    assert ms != [] && (ms + more)[0] == ms[0] && (ms + more)[1..] == ms[1..] + more;
    if Status(ms[0]).Some? {
    } else {
      SessionStops(Receive(d, ms[0]).value, ms[1..], more);
    }
  }

  lemma {:induction false} ReceiveHead(d: Desk, ms: seq<Message>)
    requires ms != [] && ReceiveAll(d, ms).Some?
    ensures Receive(d, ms[0]).Some? && ReceiveAll(Receive(d, ms[0]).value, ms[1..]) == ReceiveAll(d, ms)
    decreases |ms|
  {
    if |ms| > 1 {
      var init := ms[..|ms| - 1];
      ReceiveHead(d, init);
      assert ms[1..][..|ms[1..]| - 1] == init[1..];
    } else {
      assert ms[..0] == [];
    }
  }

  lemma {:induction false} JoinedAreOutputs(segs: seq<seq<Message>>)
    requires Numbered(segs)
    ensures forall a :: 0 <= a < |Flatten(segs)| ==> Flatten(segs)[a].TaskOutput?
    decreases |segs|
  {
    if segs == [] {
    } else {
      JoinedAreOutputs(segs[..|segs| - 1]);
    }
  }

  /**
    Transfer correctness: whatever the interleaving of the streams and the sizes of the blocks, a client that
    receives all an executor wrote for its task ends with the same standard output and error, with every non-empty
    generated file in the place of its own name, in the order of their indices, and with the task's exit code. No
    file index is out of range.
   */
  lemma TransferCorrect(names: seq<string>, disk: map<string, seq<byte>>, resolve: string -> string,
                        stdio: seq<Message>, segs: seq<seq<Message>>,
                        stdout: seq<byte>, stderr: seq<byte>, files: seq<seq<byte>>, done: Message)
    requires Carries(stdio, segs, stdout, stderr, files) && |names| == |files| && done.TaskDone?
    ensures var (r, status) := Session(EmptyDesk(names, disk, resolve), stdio + Flatten(segs) + [done]);
      && r.Some? && r.value.out == stdout && r.value.err == stderr
      && r.value.disk == Delivered(disk, Places(resolve, names), files)
      && status == done.exitCode
  {
    var d := EmptyDesk(names, disk, resolve);
    ReceiveStdio(d, stdio);
    var d1 := d.(out := [] + stdout, err := [] + stderr);
    ReceiveAdds(d, stdio, Flatten(segs));
    ReceiveSegments(names, disk, resolve, [] + stdout, [] + stderr, segs, files);
    assert Numbered(segs) by {
      assert forall i :: 0 <= i < |segs| ==> SegmentOf(i, segs[i], files[i]);
    }
    JoinedAreOutputs(segs);
    SessionIsReceive(d, stdio + Flatten(segs), done);
    assert Places(resolve, names)[..|segs|] == Places(resolve, names);
  }

  // ---------- what `Delivered` means for one file ----------

  /** No later non-empty file goes to the same place. */
  predicate LastAtPlace(places: seq<string>, files: seq<seq<byte>>, i: nat) {
    forall k :: i < k < |places| && k < |files| && places[k] == places[i] ==> files[k] == []
  }

  /** The last non-empty file for the place of file `i` has the contents of file `i`. */
  predicate SameAsLast(places: seq<string>, files: seq<seq<byte>>, i: nat)
    requires |places| == |files| && i < |files|
  {
    exists k :: i <= k < |files| && places[k] == places[i] && files[k] == files[i] && LastAtPlace(places, files, k)
  }

  /** A place ends up with the last non-empty file delivered to it; other places are left alone. */
  lemma {:induction false} DeliveredExact(disk: map<string, seq<byte>>, places: seq<string>, files: seq<seq<byte>>)
    requires |places| == |files|
    ensures var d := Delivered(disk, places, files);
      && (forall i :: 0 <= i < |files| && files[i] != [] && LastAtPlace(places, files, i) ==>
            places[i] in d && d[places[i]] == files[i])
      && (forall p :: (forall i :: 0 <= i < |files| && places[i] == p ==> files[i] == []) ==>
            (p in d <==> p in disk) && (p in d ==> d[p] == disk[p]))
    decreases |files|
  {
    if files == [] {
    } else {
      var n := |files| - 1;
      var ns, fs := places[..n], files[..n];
      DeliveredExact(disk, ns, fs);
      var d0, d := Delivered(disk, ns, fs), Delivered(disk, places, files);
      forall i | 0 <= i < |files| && files[i] != [] && LastAtPlace(places, files, i)
        ensures places[i] in d && d[places[i]] == files[i]
      {
        if i < n {
          assert LastAtPlace(ns, fs, i) && ns[i] == places[i] && fs[i] == files[i];
        }
      }
      forall p | forall i :: 0 <= i < |files| && places[i] == p ==> files[i] == []
        ensures (p in d <==> p in disk) && (p in d ==> d[p] == disk[p])
      {
        assert forall i :: 0 <= i < |fs| && ns[i] == p ==> places[i] == p && fs[i] == files[i];
        assert places[n] == p ==> files[n] == [];
      }
    }
  }

  /** File `i` arrives intact exactly if the last non-empty file for its place has the same contents. */
  lemma ArrivesExact(disk: map<string, seq<byte>>, places: seq<string>, files: seq<seq<byte>>, i: nat)
    requires |places| == |files| && i < |files| && files[i] != []
    ensures var d := Delivered(disk, places, files);
      && places[i] in d
      && (d[places[i]] == files[i] <==> SameAsLast(places, files, i))
  {
    DeliveredExact(disk, places, files);
    var k := LastOf(places, files, i, |files|);
    assert LastAtPlace(places, files, k);
    forall l | i <= l < |files| && places[l] == places[i] && files[l] == files[i] && LastAtPlace(places, files, l)
      ensures l == k
    {
    }
  }

  /** The last non-empty file for the place of file `i`, among the first `n`. */
  lemma {:induction false} LastOf(places: seq<string>, files: seq<seq<byte>>, i: nat, n: nat) returns (k: nat)
    requires |places| == |files| && i < n <= |files| && files[i] != []
    ensures i <= k < n && places[k] == places[i] && files[k] != []
    ensures forall l :: k < l < n && places[l] == places[i] ==> files[l] == []
    decreases n
  {
    if n - 1 == i || (places[n - 1] == places[i] && files[n - 1] != []) {
      k := n - 1;
    } else {
      k := LastOf(places, files, i, n - 1);
    }
  }

  /** Some non-empty file is sent for place `p`. */
  predicate Made(places: seq<string>, files: seq<seq<byte>>, p: string)
    requires |places| == |files|
  {
    exists i :: 0 <= i < |files| && places[i] == p && files[i] != []
  }

  /** A non-empty file is there intact exactly if the last non-empty file for its place has the same contents. */
  ghost predicate HeldExactly(places: seq<string>, files: seq<seq<byte>>, after: map<string, seq<byte>>, i: nat)
    requires |places| == |files| && i < |files|
  {
    files[i] != [] ==>
      && places[i] in after
      && (after[places[i]] == files[i] <==> SameAsLast(places, files, i))
  }

  /** A place is filled exactly if it was before or a non-empty file was sent for it, and untouched if none was. */
  predicate PlaceSettled(places: seq<string>, files: seq<seq<byte>>, before: map<string, seq<byte>>,
                        after: map<string, seq<byte>>, p: string)
    requires |places| == |files|
  {
    && (p in after <==> p in before || Made(places, files, p))
    && (p in before && !Made(places, files, p) ==> after[p] == before[p])
  }

  /** What the client's disk holds afterwards, place by place and file by file. */
  ghost predicate Settled(places: seq<string>, files: seq<seq<byte>>, before: map<string, seq<byte>>,
                          after: map<string, seq<byte>>)
    requires |places| == |files|
  {
    && (forall p: string :: PlaceSettled(places, files, before, after, p))
    && (forall i :: 0 <= i < |files| ==> HeldExactly(places, files, after, i))
  }

  lemma PlaceSettles(disk: map<string, seq<byte>>, places: seq<string>, files: seq<seq<byte>>, p: string)
    requires |places| == |files|
    ensures PlaceSettled(places, files, disk, Delivered(disk, places, files), p)
  {
    DeliveredExact(disk, places, files);
    if Made(places, files, p) {
      var i :| 0 <= i < |files| && places[i] == p && files[i] != [];
      ArrivesExact(disk, places, files, i);
    }
  }

  lemma DeliveredSettles(disk: map<string, seq<byte>>, places: seq<string>, files: seq<seq<byte>>)
    requires |places| == |files|
    ensures Settled(places, files, disk, Delivered(disk, places, files))
  {
    forall p: string ensures PlaceSettled(places, files, disk, Delivered(disk, places, files), p) {
      PlaceSettles(disk, places, files, p);
    }
    forall i | 0 <= i < |files| ensures HeldExactly(places, files, Delivered(disk, places, files), i) {
      if files[i] != [] {
        ArrivesExact(disk, places, files, i);
      }
    }
  }

  /** Two outputs for one place, under one name or under two: the first is lost. */
  lemma SharedPlaceLosesOutput(spelling: string)
    ensures exists resolve: string -> string, names: seq<string>, files: seq<seq<byte>>, disk: map<string, seq<byte>> ::
      && |names| == |files| == 2 && names[0] == "a.o" && names[1] == spelling && files[0] != [] && files[1] != []
      && var places := Places(resolve, names);
         places[0] in Delivered(disk, places, files) && Delivered(disk, places, files)[places[0]] != files[0]
  {
    var resolve := (name: string) => if name == spelling then "a.o" else name;
    var names, files, disk: map<string, seq<byte>> := ["a.o", spelling], [[1], [2]], map[];
    var places := Places(resolve, names);
    DeliveredExact(disk, places, files);
    assert LastAtPlace(places, files, 1);
    assert places[0] == places[1];
  }
}
