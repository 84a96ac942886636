/**
 What a session guarantees: nothing is lost in any run, the two folders agree when both sides have
 left, leaving means what it should, and every run comes to an end.
 */
module SessionTheorems {
  import opened Basics
  import opened Runs
  import opened Chunks
  import opened Session
  import opened SessionStreams
  import opened SessionFiles
  import opened SessionRuns

  // ----- no loss

  /**
   At every step of every run, including runs cut short anywhere by a lost connection, a timeout, a
   rejected chunk or a failed file operation, every content a side held at the start is still on
   that side: at its path or at a backup of its path.
   */
  lemma {:induction false} NothingIsLost(hash: Bytes -> Digest, d: Deal, states: seq<System>, actions: seq<Action>,
                                         i: nat)
    requires Sound(d) && Run(hash, Universe(d), states, actions) && Start(hash, d, states[0]) && i < |states|
    ensures NoLoss(d.client, states[i].client.files) && NoLoss(d.server, states[i].server.files)
  {
    RunKeepsInv(hash, d, states, actions, i);
  }

  // ----- leaving the loop

  /** On a live client the counters say exactly that everything is acknowledged and has arrived. */
  lemma {:induction false} ClientLeavesWhen(hash: Bytes -> Digest, d: Deal, s: System)
    requires Sound(d) && SystemInv(hash, d, s) && !s.client.failed && s.client.tx.sentinelSent
    ensures Done(s.client) <==> s.client.rx.acked == ToSet(d.clientPush) && s.client.rx.received == d.serverPush
  {
    var x := s.client;
    assert x.tx.pushed == d.clientPush;
    assert d.clientPush[..|d.clientPush|] == d.clientPush && d.serverPush[..|d.serverPush|] == d.serverPush;
    SoundViews(d, Client);
    DistinctCardinality(d.clientPush);
    if x.rx.received == d.serverPush {
      assert d.serverPush[|d.serverPush|..] == [];
    }
  }

  /** A client that has left: all pulls are on disk, and the server has taken every push. */
  lemma {:induction false} ClientExit(hash: Bytes -> Digest, d: Deal, s: System)
    requires Sound(d) && SystemInv(hash, d, s) && Done(s.client)
    ensures forall p :: p in d.serverPush ==> p in s.client.files && s.client.files[p] == d.server[p]
    ensures s.server.rx.received == d.clientPush
    ensures !s.server.failed ==> forall p :: p in d.clientPush ==>
      p in s.server.files && s.server.files[p] == d.client[p]
  {
    ClientLeavesWhen(hash, d, s);
    SoundViews(d, Client);
    DistinctCardinality(d.clientPush);
    var n := |s.server.rx.received|;
    assert n == |d.clientPush| by {
      AcknowledgedIsReceived(s.client, s.server, s.toClient, ViewOf(d, Client), ViewOf(d, Server));
    }
    assert d.clientPush[..n] == d.clientPush;
  }

  /** The other side has received at least as many files as this side has seen acknowledged. */
  lemma {:induction false} AcknowledgedIsReceived(x: Peer, y: Peer, toX: seq<Message>, v: View, w: View)
    requires Channel(x, y, toX, v, w) && !x.failed
    ensures |x.rx.acked| <= |y.rx.received| <= |v.push|
    ensures forall p :: p in x.rx.acked ==> p in y.rx.received
  {
    if x.rx.gotSentinel {
      assert |toX + Remaining(y, w) + Acks(v.push[|y.rx.received|..])| == |Acks(v.push[|x.rx.acked|..])|;
    }
    assert v.push[..|x.rx.acked|] <= v.push[..|y.rx.received|];
  }

  /** A server leaves exactly when it has read the sentinel; by then nothing is partial and all has arrived. */
  lemma {:induction false} ServerExit(hash: Bytes -> Digest, d: Deal, s: System)
    requires Sound(d) && SystemInv(hash, d, s) && !s.server.failed && s.server.tx.sentinelSent
    ensures Done(s.server) <==> s.server.rx.gotSentinel
    ensures Done(s.server) ==> s.server.rx.buffers == EMPTY && s.server.rx.received == d.clientPush
    ensures Done(s.server) ==> forall p :: p in d.clientPush ==> p in s.server.files && s.server.files[p] == d.client[p]
  {
    var n := |d.clientPush|;
    assert d.clientPush[..n] == d.clientPush;
    SoundViews(d, Server);
  }

  // ----- convergence

  /** The copy of a path that a session settles on. */
  ghost function Settled(d: Deal, p: Path): Bytes
    requires Sound(d) && p in Universe(d)
  {
    if p in d.serverPush then d.server[p] else d.client[p]
  }

  /** A folder holds the settled copy of every path, its backups of replaced files, and nothing else. */
  ghost predicate HoldsSettled(hash: Bytes -> Digest, d: Deal, x: Peer, v: View)
    requires Sound(d)
  {
    && (forall p :: p in Universe(d) ==> p in x.files && x.files[p] == Settled(d, p))
    && (forall q :: q in x.files ==> q in Universe(d) || IsBackup(hash, x, v, q))
    && BackedUp(hash, x, v)
  }

  lemma {:induction false} SideHoldsSettled(hash: Bytes -> Digest, d: Deal, x: Peer, r: Role)
    requires Sound(d) && FilesInv(hash, x, ViewOf(d, r)) && x.rx.received == ViewOf(d, r).theirPush
    ensures HoldsSettled(hash, d, x, ViewOf(d, r))
  {
    var v := ViewOf(d, r);
    SoundViews(d, r);
    forall p | p in Universe(d) ensures p in x.files && x.files[p] == Settled(d, p) {
      if p !in v.theirPush {
        assert p in v.mine;
      }
    }
  }

  /**
   When both sides have left, both folders hold the same content at every path either side started
   with; they can differ only in the backups of replaced files.
   */
  lemma {:induction false} Convergence(hash: Bytes -> Digest, d: Deal, states: seq<System>, actions: seq<Action>,
                                       i: nat)
    requires Sound(d) && Run(hash, Universe(d), states, actions) && Start(hash, d, states[0]) && i < |states|
    requires Done(states[i].client) && Done(states[i].server)
    ensures HoldsSettled(hash, d, states[i].client, ViewOf(d, Client))
    ensures HoldsSettled(hash, d, states[i].server, ViewOf(d, Server))
  {
    RunKeepsInv(hash, d, states, actions, i);
    BothDoneSettled(hash, d, states[i]);
  }

  lemma {:induction false} BothDoneSettled(hash: Bytes -> Digest, d: Deal, s: System)
    requires Sound(d) && SystemInv(hash, d, s) && Done(s.client) && Done(s.server)
    ensures s.client.rx.received == d.serverPush && s.server.rx.received == d.clientPush
    ensures HoldsSettled(hash, d, s.client, ViewOf(d, Client)) && HoldsSettled(hash, d, s.server, ViewOf(d, Server))
  {
    ClientLeavesWhen(hash, d, s);
    ServerExit(hash, d, s);
    SideHoldsSettled(hash, d, s.client, Client);
    SideHoldsSettled(hash, d, s.server, Server);
  }

  // ----- progress

  /** Messages still to be written, acknowledgements still owed, messages still queued, sides still alive. */
  ghost function Work(x: Peer, y: Peer, toX: seq<Message>, toY: seq<Message>, v: View): nat
    requires Channel(x, y, toX, v, Flip(v)) && Channel(y, x, toY, Flip(v), v)
  {
    2 * (|Remaining(x, v)| + |Remaining(y, Flip(v))| +
         (|v.theirPush| - |x.rx.received|) + (|v.push| - |y.rx.received|)) +
    |toX| + |toY| + (if x.failed then 0 else 1) + (if y.failed then 0 else 1)
  }

  ghost function SystemWork(hash: Bytes -> Digest, d: Deal, s: System): nat
    requires Sound(d) && SystemInv(hash, d, s)
  {
    Work(s.client, s.server, s.toClient, s.toServer, ViewOf(d, Client))
  }

  lemma {:induction false} WorkOf(hash: Bytes -> Digest, d: Deal, s: System, r: Role)
    requires Sound(d) && SystemInv(hash, d, s)
    ensures Pair(hash, Side(s, r), Side(s, Other(r)), Inbox(s, r), Inbox(s, Other(r)), ViewOf(d, r))
    ensures SystemWork(hash, d, s) == Work(Side(s, r), Side(s, Other(r)), Inbox(s, r), Inbox(s, Other(r)), ViewOf(d, r))
  {
    PairOf(hash, d, s, r);
    SoundViews(d, r);
    SoundViews(d, Other(r));
  }

  lemma {:induction false} SendWorks(hash: Bytes -> Digest, x: Peer, y: Peer, toX: seq<Message>, toY: seq<Message>,
                                     v: View)
    requires Pair(hash, x, y, toX, toY, v) && GoodView(v) && CanSend(x)
    ensures var (x', out) := Send(x);
      Pair(hash, x', y, toX, toY + out, v) && Work(x', y, toX, toY + out, v) < Work(x, y, toX, toY, v)
  {
    SendKeeps(hash, x, y, toX, toY, v);
    SendStep(x, v);
  }

  lemma {:induction false} ReceiveWorks(hash: Bytes -> Digest, x: Peer, y: Peer, toX: seq<Message>,
                                        toY: seq<Message>, v: View, ts: U64)
    requires Pair(hash, x, y, toX, toY, v) && GoodView(v)
    requires CanReceive(x) && toX != [] && FreshBackup(hash, Names(v), x, toX[0], ts)
    ensures var (x', out) := Receive(hash, x, toX[0], ts);
      Pair(hash, x', y, toX[1..], toY + out, v) && Work(x', y, toX[1..], toY + out, v) < Work(x, y, toX, toY, v)
  {
    ReceiveKeeps(hash, x, y, toX, toY, v, ts);
    NextIsExpected(x, y, toX, v, Flip(v));
    ReceiveStep(hash, x, v, toX[0], ts);
    ReceiveIsSameSending(hash, x, toX[0], ts);
  }

  lemma {:induction false} FailWorks(hash: Bytes -> Digest, x: Peer, y: Peer, toX: seq<Message>, toY: seq<Message>,
                                     v: View, x': Peer)
    requires Pair(hash, x, y, toX, toY, v) && Pair(hash, x', y, toX, toY + [], v)
    requires !x.failed && x' == x.(failed := true, files := x'.files)
    ensures Work(x', y, toX, toY + [], v) < Work(x, y, toX, toY, v)
  {
    assert Remaining(x', v) == Remaining(x, v);
  }

  lemma {:induction false} WorkAfter(hash: Bytes -> Digest, d: Deal, s: System, r: Role, x': Peer,
                                     inbox: seq<Message>, out: seq<Message>)
    requires Sound(d) && SystemInv(hash, d, s) && x'.role == r
    requires Pair(hash, x', Side(s, Other(r)), inbox, Inbox(s, Other(r)) + out, ViewOf(d, r))
    requires Pair(hash, Side(s, r), Side(s, Other(r)), Inbox(s, r), Inbox(s, Other(r)), ViewOf(d, r))
    requires Work(x', Side(s, Other(r)), inbox, Inbox(s, Other(r)) + out, ViewOf(d, r)) <
             Work(Side(s, r), Side(s, Other(r)), Inbox(s, r), Inbox(s, Other(r)), ViewOf(d, r))
    ensures SystemInv(hash, d, Update(s, r, x', inbox, out))
    ensures SystemWork(hash, d, Update(s, r, x', inbox, out)) < SystemWork(hash, d, s)
  {
    UpdateKeepsInv(hash, d, s, r, x', inbox, out);
    WorkOf(hash, d, s, r);
    WorkOf(hash, d, Update(s, r, x', inbox, out), r);
  }

  /** Every action uses up work. */
  lemma {:induction false} ActionWorks(hash: Bytes -> Digest, d: Deal, s: System, a: Action)
    requires Sound(d) && SystemInv(hash, d, s) && Enabled(hash, Universe(d), s, a)
    ensures SystemInv(hash, d, Apply(hash, Universe(d), s, a))
    ensures SystemWork(hash, d, Apply(hash, Universe(d), s, a)) < SystemWork(hash, d, s)
  {
    var r := a.role;
    var x, y, toX, toY, v := Side(s, r), Side(s, Other(r)), Inbox(s, r), Inbox(s, Other(r)), ViewOf(d, r);
    SoundViews(d, r);
    PairOf(hash, d, s, r);
    match a {
      case Sends(_) =>
        SendWorks(hash, x, y, toX, toY, v);
        SendSameRole(x);
        WorkAfter(hash, d, s, r, Send(x).0, toX, Send(x).1);
      case Receives(_, ts) => ReceivesWork(hash, d, s, r, ts);
      case Aborts(_) =>
        FailKeeps(hash, x, y, toX, toY, toX, v, x.(failed := true));
        FailWorks(hash, x, y, toX, toY, v, x.(failed := true));
        WorkAfter(hash, d, s, r, x.(failed := true), toX, []);
      case AbortsInCommit(_, ts, stage) => AbortsInCommitWork(hash, d, s, r, ts, stage);
    }
  }

  lemma {:induction false} ReceivesWork(hash: Bytes -> Digest, d: Deal, s: System, r: Role, ts: U64)
    requires Sound(d) && SystemInv(hash, d, s) && Enabled(hash, Universe(d), s, Receives(r, ts))
    ensures SystemInv(hash, d, Apply(hash, Universe(d), s, Receives(r, ts)))
    ensures SystemWork(hash, d, Apply(hash, Universe(d), s, Receives(r, ts))) < SystemWork(hash, d, s)
  {
    var x, y, toX, toY, v := Side(s, r), Side(s, Other(r)), Inbox(s, r), Inbox(s, Other(r)), ViewOf(d, r);
    SoundViews(d, r);
    PairOf(hash, d, s, r);
    ReceiveWorks(hash, x, y, toX, toY, v, ts);
    ReceiveIsSameSending(hash, x, toX[0], ts);
    WorkAfter(hash, d, s, r, Receive(hash, x, toX[0], ts).0, toX[1..], Receive(hash, x, toX[0], ts).1);
  }

  lemma {:induction false} AbortsInCommitWork(hash: Bytes -> Digest, d: Deal, s: System, r: Role, ts: U64, stage: nat)
    requires Sound(d) && SystemInv(hash, d, s) && Enabled(hash, Universe(d), s, AbortsInCommit(r, ts, stage))
    ensures SystemInv(hash, d, Apply(hash, Universe(d), s, AbortsInCommit(r, ts, stage)))
    ensures SystemWork(hash, d, Apply(hash, Universe(d), s, AbortsInCommit(r, ts, stage))) < SystemWork(hash, d, s)
  {
    var x, y, toX, toY, v := Side(s, r), Side(s, Other(r)), Inbox(s, r), Inbox(s, Other(r)), ViewOf(d, r);
    SoundViews(d, r);
    PairOf(hash, d, s, r);
    AbortInCommitKeeps(hash, x, y, toX, toY, v, ts, stage);
    var p, data := toX[0].chunk.path, Completes(hash, x, toX[0]).value;
    var x' := x.(files := CommitStage(x.files, p, data, BackupName(hash, x.loser, p, data, ts), stage), failed := true);
    FailWorks(hash, x, y, toX, toY, v, x');
    WorkAfter(hash, d, s, r, x', toX, []);
  }

  /** The work left in a state; nothing outside the states of a session. */
  ghost function WorkLeft(hash: Bytes -> Digest, d: Deal): System -> nat
    requires Sound(d)
  {
    s => if SystemInv(hash, d, s) then SystemWork(hash, d, s) else 0
  }

  /** No run is longer than the work there is at its start. */
  lemma {:induction false} RunsEnd(hash: Bytes -> Digest, d: Deal, states: seq<System>, actions: seq<Action>)
    requires Sound(d) && Run(hash, Universe(d), states, actions) && Start(hash, d, states[0])
    ensures |actions| <= WorkLeft(hash, d)(states[0])
  {
    StartInv(hash, d, states[0]);
    StepsKeepInv(hash, d);
    StepsWork(hash, d);
    SupplyAlongRun(Next(hash, Universe(d)), s => SystemInv(hash, d, s), WorkLeft(hash, d), states, actions, |actions|);
  }

  lemma {:induction false} StepsWork(hash: Bytes -> Digest, d: Deal)
    requires Sound(d)
    ensures UsesUp(Next(hash, Universe(d)), s => SystemInv(hash, d, s), WorkLeft(hash, d))
  {
    forall s, a, s' | SystemInv(hash, d, s) && Next(hash, Universe(d))(s, a, s')
      ensures WorkLeft(hash, d)(s') < WorkLeft(hash, d)(s)
    {
      ActionWorks(hash, d, s, a);
    }
  }

  /** Before the sentinel has been read, what is unread cannot consist of acknowledgements alone. */
  lemma {:induction false} SentinelPending(x: Peer, v: View, ps: seq<Path>)
    requires Receiving(x, v) && !x.rx.gotSentinel && "" !in ps
    ensures Unread(x, v) != Acks(ps)
  {
    var n := |Rest(v.theirs, v.theirPush[|x.rx.received|..], x.rx.buffers.buffered)|;
    assert Unread(x, v)[n] == SENTINEL;
    assert n < |ps| ==> Acks(ps)[n] == Ack(ps[n], true) && ps[n] in ps;
  }

  /** A live side with an empty inbox and a partner that has pushed everything is merely short of acks. */
  lemma {:induction false} Starved(x: Peer, y: Peer, v: View, w: View)
    requires Channel(x, y, [], v, w) && GoodView(v) && !x.failed && y.tx.sentinelSent
    ensures x.rx.gotSentinel && |x.rx.acked| == |y.rx.received|
  {
    var owed := v.push[|y.rx.received|..];
    assert [] + [] + Acks(owed) == Acks(owed);
    assert "" !in owed by {
      assert forall p :: p in owed ==> p in v.push && p in Names(v);
    }
    if !x.rx.gotSentinel {
      SentinelPending(x, v, owed);
    }
    assert |Acks(owed)| == |v.push| - |y.rx.received|;
  }

  /** Some side can act. A side that can receive can do so at any time stamp that gives a fresh backup name. */
  ghost predicate CanAct(s: System) {
    || CanSend(s.client) || CanSend(s.server)
    || (CanReceive(s.client) && s.toClient != []) || (CanReceive(s.server) && s.toServer != [])
  }

  lemma {:induction false} ServerNotStuck(hash: Bytes -> Digest, d: Deal, s: System)
    requires Sound(d) && SystemInv(hash, d, s) && !s.server.failed && s.client.tx.sentinelSent &&
      s.server.tx.sentinelSent
    ensures Done(s.server) || s.toServer != []
  {
    SoundViews(d, Server);
    ServerExit(hash, d, s);
    if s.toServer == [] {
      Starved(s.server, s.client, ViewOf(d, Server), ViewOf(d, Client));
    }
  }

  /** A server that has left has acknowledged everything. */
  lemma {:induction false} ClientNotStuck(hash: Bytes -> Digest, d: Deal, s: System)
    requires Sound(d) && SystemInv(hash, d, s) && !s.client.failed && s.client.tx.sentinelSent && Done(s.server)
    ensures Done(s.client) || s.toClient != []
  {
    SoundViews(d, Client);
    ServerExit(hash, d, s);
    assert s.client.tx.pushed == d.clientPush;
    if s.toClient == [] {
      Starved(s.client, s.server, ViewOf(d, Client), ViewOf(d, Server));
    }
  }

  /** As long as neither side has failed, either both have left or some side can act. */
  lemma {:induction false} NoDeadlock(hash: Bytes -> Digest, d: Deal, s: System)
    requires Sound(d) && SystemInv(hash, d, s) && !s.client.failed && !s.server.failed
    ensures (Done(s.client) && Done(s.server)) || CanAct(s)
  {
    if s.client.tx.sentinelSent && s.server.tx.sentinelSent {
      ServerNotStuck(hash, d, s);
      if Done(s.server) {
        ClientNotStuck(hash, d, s);
      }
    }
  }

  // ----- which files can travel at all

  /** Every file of the plan passes the receiving side's limits. */
  ghost predicate AllFit(d: Deal)
    requires Sound(d)
  {
    && (forall p :: p in d.clientPush ==> Fits(p, d.client[p]))
    && (forall p :: p in d.serverPush ==> Fits(p, d.server[p]))
  }

  /** The next chunk of a file that fits passes every check, since nothing else is in flight. */
  lemma {:induction false} FittingChunkIsValid(b: Buffers, files: Files, ps: seq<Path>)
    requires ps != [] && ps[0] in files && Partial(b, files, ps) && b.buffered <= |files[ps[0]]|
    requires Fits(ps[0], files[ps[0]])
    ensures !Accept(b, ChunkAt(ps[0], files[ps[0]], b.buffered)).Rejected?
    ensures !Accept(b, ChunkAt(ps[0], files[ps[0]], b.buffered)).Underflow?
  {
    NextChunk(b, files, ps);
    assert |b.incoming| <= 1;
  }

  lemma {:induction false} AcceptedDoesNotFail(hash: Bytes -> Digest, x: Peer, m: Message, ts: U64)
    requires m.Chunk? && !x.failed && !Accept(x.rx.buffers, m.chunk).Rejected? &&
      !Accept(x.rx.buffers, m.chunk).Underflow?
    ensures !Receive(hash, x, m, ts).0.failed
  {
  }

  lemma {:induction false} FittingChunkAccepted(hash: Bytes -> Digest, x: Peer, v: View, m: Message, ts: U64)
    requires GoodView(v) && Receiving(x, v) && Sending(x, v) && CanReceive(x)
    requires |Unread(x, v)| > 0 && m == Unread(x, v)[0]
    requires forall p :: p in v.theirPush ==> Fits(p, v.theirs[p])
    ensures !Receive(hash, x, m, ts).0.failed
  {
    if !x.rx.gotSentinel && |x.rx.received| < |v.theirPush| {
      UnreadChunk(x, v);
      var ps := v.theirPush[|x.rx.received|..];
      assert ps[0] == v.theirPush[|x.rx.received|] && ps[0] in v.theirPush;
      FittingChunkIsValid(x.rx.buffers, v.theirs, ps);
      AcceptedDoesNotFail(hash, x, m, ts);
    } else if !x.rx.gotSentinel {
      SentinelRead(x, v);
    } else if |x.rx.acked| < |v.push| {
      assert Unread(x, v)[0] == Ack(v.push[|x.rx.acked|], true);
    }
  }

  /** If every file fits, a step that is not an abort does not fail. */
  lemma {:induction false} FittingStepDoesNotFail(hash: Bytes -> Digest, d: Deal, s: System, a: Action)
    requires Sound(d) && AllFit(d) && SystemInv(hash, d, s) && !s.client.failed && !s.server.failed
    requires Enabled(hash, Universe(d), s, a) && (a.Sends? || a.Receives?)
    ensures var s' := Apply(hash, Universe(d), s, a); !s'.client.failed && !s'.server.failed
  {
    if a.Receives? {
      FittingReceiveDoesNotFail(hash, d, s, a.role, a.ts);
    } else {
      SendSameRole(Side(s, a.role));
    }
  }

  lemma {:induction false} FittingReceiveDoesNotFail(hash: Bytes -> Digest, d: Deal, s: System, r: Role, ts: U64)
    requires Sound(d) && SystemInv(hash, d, s) && Enabled(hash, Universe(d), s, Receives(r, ts))
    requires forall p :: p in ViewOf(d, r).theirPush ==> Fits(p, ViewOf(d, r).theirs[p])
    ensures !Receive(hash, Side(s, r), Inbox(s, r)[0], ts).0.failed
  {
    SoundViews(d, r);
    PairOf(hash, d, s, r);
    NextIsExpected(Side(s, r), Side(s, Other(r)), Inbox(s, r), ViewOf(d, r), ViewOf(d, Other(r)));
    FittingChunkAccepted(hash, Side(s, r), ViewOf(d, r), Inbox(s, r)[0], ts);
  }

  ghost predicate Healthy(hash: Bytes -> Digest, d: Deal, s: System) {
    SystemInv(hash, d, s) && !s.client.failed && !s.server.failed
  }

  /** If every file fits, no run without aborts ever fails. */
  lemma {:induction false} FittingRunsDoNotFail(hash: Bytes -> Digest, d: Deal, states: seq<System>,
                                                actions: seq<Action>, i: nat)
    requires Sound(d) && AllFit(d) && Run(hash, Universe(d), states, actions) && Start(hash, d, states[0])
    requires NoAborts(actions) && i < |states|
    ensures Healthy(hash, d, states[i])
  {
    var next := Next(hash, Universe(d));
    var regular := (s: System, a: Action, s': System) => next(s, a, s') && (a.Sends? || a.Receives?);
    var inv := s => Healthy(hash, d, s);
    StartInv(hash, d, states[0]);
    forall s, a, s' | inv(s) && regular(s, a, s') ensures inv(s') {
      ActionKeepsInv(hash, d, s, a);
      FittingStepDoesNotFail(hash, d, s, a);
    }
    InvariantAlongRun(regular, inv, states, actions, i);
  }

  lemma {:induction false} DoneMeansAllFit(hash: Bytes -> Digest, d: Deal, s: System)
    requires Sound(d) && SystemInv(hash, d, s) && Done(s.client) && Done(s.server)
    ensures AllFit(d)
  {
    BothDoneSettled(hash, d, s);
    assert Arrived(s.client, ViewOf(d, Client)) && Arrived(s.server, ViewOf(d, Server));
  }

  /**
   A run without aborts that has come to rest ends with both sides having left, and so with both
   folders settled, exactly when every file of the plan fits the receiver's limits.
   */
  lemma {:induction false} CompletesIffAllFit(hash: Bytes -> Digest, d: Deal, states: seq<System>, actions: seq<Action>)
    requires Sound(d) && Run(hash, Universe(d), states, actions) && Start(hash, d, states[0]) && NoAborts(actions)
    requires !CanAct(states[|actions|])
    ensures AllFit(d) <==> Done(states[|actions|].client) && Done(states[|actions|].server)
  {
    var s := states[|actions|];
    RunKeepsInv(hash, d, states, actions, |actions|);
    if AllFit(d) {
      FittingRunsDoNotFail(hash, d, states, actions, |actions|);
      NoDeadlock(hash, d, s);
    }
    if Done(s.client) && Done(s.server) {
      DoneMeansAllFit(hash, d, s);
    }
  }
}
