/** The record of run times kept between server sessions, and how it feeds back into queue priorities. */
module Histories {
  import opened Messages
  import opened Scheduler

  /** Target id to elapsed time and the time it was recorded. */
  type Entries = map<string, (Nanos, Nanos)>

  /** About six months, in the source's own arithmetic. */
  const KEEP: Nanos := 3600 * 24 * 366 / 2 * SECOND

  /** Entries recorded after the cutoff stay. */
  function Purge(h: Entries, cutoff: int): Entries {
    map k | k in h && h[k].1 > cutoff :: h[k]
  }

  /** Entries are kept for 183 days, to the second: one written that long before is purged, a younger one kept. */
  lemma PurgedAfterHalfAYear(file: Entries, making: Entries, now: Nanos, k: string)
    requires k in file && k !in making && now >= file[k].1
    ensures now - file[k].1 >= 183 * 24 * 3600 * 1_000_000_000 ==> k !in Written(file, making, now)
    ensures now - file[k].1 < 183 * 24 * 3600 * 1_000_000_000 ==>
      k in Written(file, making, now) && Written(file, making, now)[k] == file[k]
  {
  }

  /** What one session's shutdown leaves in the file. */
  function Written(file: Entries, making: Entries, now: Nanos): Entries {
    Purge(file + making, now - KEEP)
  }

  /** The source's `History` object. */
  class History {
    var history: Entries

    constructor ()
      ensures history == map[]
    {
      history := map[];
    }

    method IsEmpty() returns (b: bool)
      ensures b <==> history == map[]
    {
      b := history == map[];
    }

    method Get(target: string) returns (r: Option<Nanos>)
      ensures r == if target in history then Some(history[target].0) else None
    {
      if target in history {
        r := Some(history[target].0);
      } else {
        r := None;
      }
    }

    method Update(target: string, elapsed: Nanos, now: Nanos)
      modifies this
      ensures history == old(history)[target := (elapsed, now)]
    {
      history := history[target := (elapsed, now)];
    }

    /** Entries of `incoming` replace entries under the same key. */
    method Merge(incoming: Entries)
      modifies this
      ensures history == old(history) + incoming
    {
      history := history + incoming;
    }
  }

  /** Merge a session's results into the file and drop what is too old. A missing or unreadable file counts as
      empty. */
  method WriteHistoryFile(file: Option<Entries>, making: Entries, now: Nanos) returns (file': Entries)
    ensures file' == Written(if file.Some? then file.value else map[], making, now)
  {
    var total := new History();
    if file.Some? {
      total.Merge(file.value);
      assert map[] + file.value == file.value;
    }
    total.Merge(making);
    var cutoff := now - KEEP;
    total.history := map k | k in total.history && total.history[k].1 > cutoff :: total.history[k];
    file' := total.history;
  }

  /** What a server does with its results when it stops: a session that recorded nothing leaves the file alone. */
  method Shutdown(file: Option<Entries>, making: History, now: Nanos) returns (file': Option<Entries>)
    ensures file' == if making.history == map[] then file
                     else Some(Written(if file.Some? then file.value else map[], making.history, now))
  {
    var idle := making.IsEmpty();
    if idle {
      return file;
    }
    var written := WriteHistoryFile(file, making.history, now);
    return Some(written);
  }

  // ---------- purging often or once ----------

  /** An entry purged early and neither renewed nor due to be purged anyway. */
  predicate PrematurelyPurged(file: Entries, making: Entries, cut1: int, cut2: int, k: string) {
    k in file && k !in making && cut2 < file[k].1 <= cut1
  }

  /** Purging before a merge changes the final result exactly if some entry is purged prematurely, which takes a
      cutoff that moves backwards. */
  lemma EarlyPurgeExact(file: Entries, making: Entries, cut1: int, cut2: int)
    ensures Purge(Purge(file, cut1) + making, cut2) == Purge(file + making, cut2)
       <==> !exists k :: PrematurelyPurged(file, making, cut1, cut2, k)
    ensures cut1 <= cut2 ==> Purge(Purge(file, cut1) + making, cut2) == Purge(file + making, cut2)
  {
    var a, b := Purge(Purge(file, cut1) + making, cut2), Purge(file + making, cut2);
    assert forall k :: k in a ==> k in b && a[k] == b[k];
    assert forall k :: k in b && k !in a ==> PrematurelyPurged(file, making, cut1, cut2, k);
    if k :| PrematurelyPurged(file, making, cut1, cut2, k) {
      assert k in b && k !in a;
    }
    if !exists k :: PrematurelyPurged(file, making, cut1, cut2, k) {
      assert a.Keys == b.Keys;
      assert a == b;
    }
  }

  lemma EarlyPurgeHarmless(file: Entries, making: Entries, cut1: int, cut2: int)
    requires cut1 <= cut2
    ensures Purge(Purge(file, cut1) + making, cut2) == Purge(file + making, cut2)
  {
    EarlyPurgeExact(file, making, cut1, cut2);
  }

  /** A session that ended by writing its results; one that recorded none does not write. */
  datatype Session = Session(making: Entries, now: Nanos)

  /** What the code does: every session merges and purges. */
  function FileAfter(start: Entries, sessions: seq<Session>): Entries {
    if sessions == [] then start
    else
      var last := sessions[|sessions| - 1];
      Written(FileAfter(start, sessions[..|sessions| - 1]), last.making, last.now)
  }

  /** The simple form: later results win, nothing is ever purged. */
  function Everything(start: Entries, sessions: seq<Session>): Entries {
    if sessions == [] then start
    else Everything(start, sessions[..|sessions| - 1]) + sessions[|sessions| - 1].making
  }

  predicate ClockForward(sessions: seq<Session>) {
    forall a, b :: 0 <= a < b < |sessions| ==> sessions[a].now <= sessions[b].now
  }

  /** With a clock that does not go back, purging at every session leaves the same file as keeping everything and
      purging once, at the last session. */
  lemma {:induction false} PurgeOnce(start: Entries, sessions: seq<Session>)
    requires sessions != [] && ClockForward(sessions)
    ensures FileAfter(start, sessions) == Purge(Everything(start, sessions), sessions[|sessions| - 1].now - KEEP)
    decreases |sessions|
  {
    var before, last := sessions[..|sessions| - 1], sessions[|sessions| - 1];
    if before == [] {
    } else {
      PurgeOnce(start, before);
      assert before[|before| - 1].now <= last.now;
      EarlyPurgeHarmless(Everything(start, before), last.making, before[|before| - 1].now - KEEP, last.now - KEEP);
    }
  }

  // ---------- priorities across sessions ----------

  /** In seconds: a target without a recorded time counts as one second, a priority task as five minutes more. */
  lemma PriorityInSeconds(cfg: Config, d: TaskDetails)
    ensures TargetId(d) !in cfg.prior && !d.priorityTask ==> Priority(cfg, d) == 1_000_000_000
    ensures TargetId(d) !in cfg.prior && d.priorityTask ==> Priority(cfg, d) == 301 * 1_000_000_000
    ensures TargetId(d) in cfg.prior && d.priorityTask ==>
      Priority(cfg, d) == cfg.prior[TargetId(d)] + 300 * 1_000_000_000
    ensures TargetId(d) in cfg.prior && !d.priorityTask ==> Priority(cfg, d) == cfg.prior[TargetId(d)]
  {
  }

  /** The elapsed times a server loads from the file. */
  function Load(file: Entries): map<string, Nanos> {
    map k | k in file :: file[k].0
  }

  /** The last session, if any, in which target `id` succeeded. */
  predicate LastSuccess(sessions: seq<Session>, id: string, a: nat) {
    a < |sessions| && id in sessions[a].making && forall b :: a < b < |sessions| ==> id !in sessions[b].making
  }

  lemma {:induction false} EverythingHas(start: Entries, sessions: seq<Session>, id: string, a: nat)
    requires LastSuccess(sessions, id, a)
    ensures id in Everything(start, sessions) && Everything(start, sessions)[id] == sessions[a].making[id]
    decreases |sessions|
  {
    if a == |sessions| - 1 {
    } else {
      EverythingHas(start, sessions[..|sessions| - 1], id, a);
    }
  }

  /**
    Priority feedback: if the last success of a target took `r` and was recorded within six months of the last
    write, a later server queues a task with that id at `r`, plus five minutes if it is a priority task.
   */
  lemma PriorityFeedback(start: Entries, sessions: seq<Session>, cfg: Config, d: TaskDetails, a: nat)
    requires ClockForward(sessions) && cfg.prior == Load(FileAfter(start, sessions))
    requires LastSuccess(sessions, TargetId(d), a)
    requires sessions[a].making[TargetId(d)].1 > sessions[|sessions| - 1].now - KEEP
    ensures Priority(cfg, d) == sessions[a].making[TargetId(d)].0 + (if d.priorityTask then 300 * SECOND else 0)
  {
    PurgeOnce(start, sessions);
    EverythingHas(start, sessions, TargetId(d), a);
  }
}
