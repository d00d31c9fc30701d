/** When a peer leaves of its own accord: the composed system's peers and the programs they stand for. */
module Leaving {
  import opened Messages
  import opened Scheduler
  import opened Composition
  import opened Invariant
  import opened Runs
  import opened Relay
  import opened Guarantees
  import opened Transfer
  import opened EndToEnd

  /** The message tells the client how its task ended. */
  predicate Tells(m: Message) { m.TaskFailed? || (m.TaskDone? && m.exitCode.Some?) }

  /** The peer is gone exactly if the last message it read sent it away. */
  predicate LeftProperly(k: Conn, log: seq<Message>)
    requires k.read <= |log|
  {
    if k.peer.ClientPeer? then
      if k.peer.at == Left then k.read > 0 && Tells(log[k.read - 1])
      else forall a :: 0 <= a < k.read ==> !Tells(log[a])
    else
      if k.peer.phase == Gone then k.read > 0 && log[k.read - 1].PissOff?
      else forall a :: 0 <= a < k.read ==> !log[a].PissOff?
  }

  predicate ProperAt(y: Sys, i: nat) {
    i < |y.conns| && i < |y.sv.remotes| && y.conns[i].read <= |y.sv.remotes[i].chan.log| ==>
      LeftProperly(y.conns[i], y.sv.remotes[i].chan.log)
  }

  /** Reading position and phase of every peer are the same. */
  predicate PeersStand(ks: seq<Conn>, ks': seq<Conn>) {
    |ks| <= |ks'| && forall j :: 0 <= j < |ks| ==> ks'[j].peer == ks[j].peer && ks'[j].read == ks[j].read
  }

  lemma {:induction false} AssignStand(y: Sys, picks: seq<Ticket>)
    requires ValidPicks(y.sv, picks)
    ensures |AssignSys(y, picks).conns| == |y.conns| && PeersStand(y.conns, AssignSys(y, picks).conns)
    decreases |picks|
  {
    if picks == [] {
    } else {
      var z := AssignOneSys(y, picks[0]);
      assert PeersStand(y.conns, z.conns);
      if AssignOne(y.sv, picks[0]).verdict == Ok {
        AssignStand(z, picks[1..]);
      }
    }
  }

  lemma HandleStand(y: Sys, i: nat, m: Message, clock: Clock, picks: seq<Ticket>)
    requires i < |y.conns| && i < |y.sv.remotes| && PicksFor(y.sv, i, m, clock, picks)
    ensures |HandleSys(y, i, m, clock, picks).conns| == |y.conns|
    ensures PeersStand(y.conns, HandleSys(y, i, m, clock, picks).conns)
  {
    var z := RegisterSys(y, i, m, clock.stamp);
    assert |z.conns| == |y.conns| && PeersStand(y.conns, z.conns);
    if Register(y.sv, i, m, clock.stamp).verdict == Ok && LeadsToUpdate(m) {
      AssignStand(z.(sv := StartExecs(z.sv)), picks);
    }
  }

  lemma ServerStand(y: Sys, st: Step)
    requires Enabled(y, st) && (st.Deliver? || st.Watchdog?)
    ensures |Apply(y, st).conns| == |y.conns| && PeersStand(y.conns, Apply(y, st).conns)
  {
    if st.Deliver? {
      HandleStand(y, st.i, Next(y.sv.cfg, y.conns[st.i]).value, st.clock, st.picks);
    } else {
      AssignStand(y.(sv := StartExecs(y.sv)), st.picks);
    }
  }

  /** A channel that grew leaves what was read as it was. */
  lemma GrownProper(k: Conn, k': Conn, log: seq<Message>, log': seq<Message>)
    requires k.read <= |log| && log <= log' && LeftProperly(k, log) && k'.read == k.read && SamePeer(k.peer, k'.peer)
    requires k.peer.ClientPeer? ==> (k'.peer.at == Left <==> k.peer.at == Left)
    requires k.peer.ExecPeer? ==> (k'.peer.phase == Gone <==> k.peer.phase == Gone)
    ensures LeftProperly(k', log')
  {
    assert forall a :: 0 <= a < |log| ==> log'[a] == log[a];
  }

  lemma ReadProper(y: Sys, i: nat)
    requires Sizes(y) && i < |y.conns| && LocalAt(y, i) && Enabled(y, PeerRead(i)) && ProperAt(y, i)
    ensures ProperAt(Apply(y, PeerRead(i)), i)
  {
  }

  /** Any other step leaves the peer where it is, as far as leaving goes. */
  lemma OtherStand(y: Sys, st: Step, i: nat)
    requires Inv(y) && Enabled(y, st) && i < |y.conns| && st != PeerDie(i) && st != PeerRead(i)
    ensures i < |Apply(y, st).conns|
    ensures var k, k' := y.conns[i], Apply(y, st).conns[i];
      && k'.read == k.read && SamePeer(k.peer, k'.peer)
      && (k.peer.ClientPeer? ==> (k'.peer.at == Left <==> k.peer.at == Left))
      && (k.peer.ExecPeer? ==> (k'.peer.phase == Gone <==> k.peer.phase == Gone))
  {
    if st.Deliver? || st.Watchdog? {
      ServerStand(y, st);
    }
  }

  lemma StepProper(y: Sys, st: Step, i: nat)
    requires Inv(y) && Enabled(y, st) && ProperAt(y, i) && st != PeerDie(i)
    ensures ProperAt(Apply(y, st), i)
  {
    if i >= |y.conns| {
      NewcomerProper(y, st, i);
    } else {
      assert LocalAt(y, i);
      if st == PeerRead(i) {
        ReadProper(y, i);
      } else {
        StepGrows(y, st);
        OtherStand(y, st, i);
        GrownProper(y.conns[i], Apply(y, st).conns[i], y.sv.remotes[i].chan.log, Apply(y, st).sv.remotes[i].chan.log);
      }
    }
  }

  lemma NewcomerProper(y: Sys, st: Step, i: nat)
    requires Inv(y) && Enabled(y, st) && i >= |y.conns|
    ensures ProperAt(Apply(y, st), i)
  {
    if st.Deliver? || st.Watchdog? {
      ServerStand(y, st);
    }
  }

  lemma {:induction false} RunProper(y: Sys, steps: seq<Step>, i: nat)
    requires Inv(y) && Run(y, steps) && ProperAt(y, i) && PeerDie(i) !in steps
    ensures ProperAt(After(y, steps), i)
    decreases |steps|
  {
    if steps == [] {
    } else {
      assert steps[0] in steps && forall st :: st in steps[1..] ==> st in steps;
      StepProper(y, steps[0], i);
      StepKeeps(y, steps[0]);
      RunProper(Apply(y, steps[0]), steps[1..], i);
    }
  }

  /** An executor that does not crash leaves exactly when it has read its dismissal. */
  lemma ExecutorLeaves(y: Sys, steps: seq<Step>, e: nat)
    requires Initial(y) && Run(y, steps) && PeerDie(e) !in steps
    requires var z := After(y, steps); e < |z.conns| == |z.sv.remotes| && z.conns[e].peer.ExecPeer?
    ensures var z := After(y, steps); var k, log := z.conns[e], z.sv.remotes[e].chan.log;
      k.read <= |log| && (k.peer.phase == Gone <==> k.read > 0 && log[k.read - 1].PissOff?)
  {
    Reached(y, steps);
    InitialInv(y);
    RunProper(y, steps, e);
    assert LocalAt(After(y, steps), e);
  }

  lemma StatusOfRead(k: Conn, log: seq<Message>, d: Desk)
    requires k.peer.ClientPeer? && k.read <= |log| && LeftProperly(k, log)
    requires forall a :: 0 <= a < |log| ==> Takes(d, log[a])
    ensures k.peer.at == Left <==> Session(d, log[..k.read]).1.Some?
  {
    var seen := log[..k.read];
    forall a | 0 <= a < |seen| ensures Takes(d, seen[a]) {
      assert seen[a] == log[a];
    }
    SessionEnds(d, seen);
    if k.peer.at == Left {
      assert Tells(seen[k.read - 1]);
    } else {
      forall a | 0 <= a < |seen| ensures !Tells(seen[a]) {
        assert !Tells(log[a]);
      }
    }
  }

  /** A client that does not crash leaves exactly when its session on what it has read has an exit status. */
  lemma ClientLeaves(y: Sys, steps: seq<Step>, c: nat, disk: map<string, seq<byte>>, resolve: string -> string)
    requires Initial(y) && Run(y, steps) && PeerDie(c) !in steps
    requires var z := After(y, steps); c < |z.conns| == |z.sv.remotes| && z.conns[c].peer.ClientPeer?
    ensures var z := After(y, steps); var k, log := z.conns[c], z.sv.remotes[c].chan.log;
      && k.read <= |log| && OutputArgsInRange(k.peer.details)
      && (k.peer.at == Left <==>
            Session(EmptyDesk(OutputNames(k.peer.details), disk, resolve), log[..k.read]).1.Some?)
  {
    Reached(y, steps);
    InitialInv(y);
    RunProper(y, steps, c);
    var z := After(y, steps);
    var k, log := z.conns[c], z.sv.remotes[c].chan.log;
    assert LocalAt(z, c);
    DeskTakes(z, c, disk, resolve);
    StatusOfRead(k, log, EmptyDesk(OutputNames(k.peer.details), disk, resolve));
  }
}
