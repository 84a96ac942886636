/**
 The invariant of a session and its preservation by every action, including aborts at any point.
 */
module SessionRuns {
  import opened Basics
  import opened Runs
  import opened Chunks
  import opened Session
  import opened SessionStreams
  import opened SessionFiles

  ghost predicate PeerInv(hash: Bytes -> Digest, x: Peer, v: View) {
    && Sending(x, v) && Receiving(x, v)
    && Announces(hash, x.expected, v.theirs) && GoodLabel(x.loser)
    && (!x.failed ==> FilesInv(hash, x, v))
    && NoLoss(v.mine, x.files)
  }

  ghost function Flip(v: View): View {
    View(v.theirs, v.theirPush, v.mine, v.push)
  }

  /** Both sides and both queues; the two sides play symmetric parts. */
  ghost predicate Pair(hash: Bytes -> Digest, x: Peer, y: Peer, toX: seq<Message>, toY: seq<Message>, v: View) {
    && PeerInv(hash, x, v) && PeerInv(hash, y, Flip(v))
    && Channel(x, y, toX, v, Flip(v)) && Channel(y, x, toY, Flip(v), v)
  }

  ghost predicate SystemInv(hash: Bytes -> Digest, d: Deal, s: System) {
    && s.client.role.Client? && s.server.role.Server?
    && Pair(hash, s.client, s.server, s.toClient, s.toServer, ViewOf(d, Client))
  }

  lemma {:induction false} SoundViews(d: Deal, r: Role)
    requires Sound(d)
    ensures GoodView(ViewOf(d, r)) && Names(ViewOf(d, r)) == Universe(d)
    ensures Flip(ViewOf(d, r)) == ViewOf(d, Other(r))
  {
    assert Names(ViewOf(d, r)) == Universe(d);
  }

  /** The invariant seen from either side. */
  lemma {:induction false} PairOf(hash: Bytes -> Digest, d: Deal, s: System, r: Role)
    requires s.client.role.Client? && s.server.role.Server?
    ensures SystemInv(hash, d, s) <==>
      Pair(hash, Side(s, r), Side(s, Other(r)), Inbox(s, r), Inbox(s, Other(r)), ViewOf(d, r))
  {
    assert Flip(ViewOf(d, Client)) == ViewOf(d, Server) && Flip(ViewOf(d, Server)) == ViewOf(d, Client);
  }

  lemma {:induction false} StartInv(hash: Bytes -> Digest, d: Deal, s: System)
    requires Sound(d) && Start(hash, d, s)
    ensures SystemInv(hash, d, s)
  {
    SoundViews(d, Client);
    StartPeer(hash, s.client, ViewOf(d, Client));
    StartPeer(hash, s.server, ViewOf(d, Server));
    StartChannel(s.client, s.server, ViewOf(d, Client), ViewOf(d, Server));
    StartChannel(s.server, s.client, ViewOf(d, Server), ViewOf(d, Client));
  }

  lemma {:induction false} StartPeer(hash: Bytes -> Digest, x: Peer, v: View)
    requires GoodView(v) && Announces(hash, x.expected, v.theirs) && GoodLabel(x.loser)
    requires x == NewPeer(x.role, v.mine, x.loser, x.expected, v.push, |v.theirPush|)
    ensures PeerInv(hash, x, v)
  {
    assert v.push[..0] == [];
    assert ToSet<Path>([]) == {};
  }

  lemma {:induction false} StartChannel(x: Peer, y: Peer, v: View, w: View)
    requires Receiving(x, v) && Receiving(y, w) && Sending(y, w) && w == Flip(v)
    requires x == NewPeer(x.role, v.mine, x.loser, x.expected, v.push, |v.theirPush|)
    requires y == NewPeer(y.role, w.mine, y.loser, y.expected, w.push, |w.theirPush|)
    ensures Channel(x, y, [], v, w)
  {
    assert v.theirPush[0..] == v.theirPush && v.push[0..] == v.push;
  }

  // ----- every action keeps the invariant

  lemma {:induction false} SendKeeps(hash: Bytes -> Digest, x: Peer, y: Peer, toX: seq<Message>, toY: seq<Message>,
                                     v: View)
    requires Pair(hash, x, y, toX, toY, v) && GoodView(v) && CanSend(x)
    ensures var (x', out) := Send(x); Pair(hash, x', y, toX, toY + out, v)
  {
    var (x', out) := Send(x);
    SendStep(x, v);
    SendMovesChannel(y, x, toY, Flip(v), v);
    SameFiles(hash, x, x', v);
    assert Unread(x', v) == Unread(x, v);
  }

  lemma {:induction false} SameFiles(hash: Bytes -> Digest, x: Peer, x': Peer, v: View)
    requires x'.files == x.files && x'.log == x.log && x'.rx.received == x.rx.received && x'.loser == x.loser
    ensures FilesInv(hash, x, v) ==> FilesInv(hash, x', v)
  {
    if FilesInv(hash, x, v) {
      assert forall p :: p in x.log.backups && p in v.theirs ==> BackupOf(hash, x', v, p) == BackupOf(hash, x, v, p);
      forall q | IsBackup(hash, x, v, q) ensures IsBackup(hash, x', v, q) {
        var p :| p in x.log.backups && p in v.theirs && q == BackupOf(hash, x, v, p);
        assert q == BackupOf(hash, x', v, p);
      }
    }
  }

  lemma {:induction false} FailKeeps(hash: Bytes -> Digest, x: Peer, y: Peer, toX: seq<Message>, toY: seq<Message>,
                                     toX': seq<Message>, v: View, x': Peer)
    requires Pair(hash, x, y, toX, toY, v) && x' == x.(failed := true, files := x'.files)
    requires NoLoss(v.mine, x'.files) && (x.tx.sentinelSent || x'.files == x.files)
    ensures Pair(hash, x', y, toX', toY + [], v)
  {
    assert toY + [] == toY;
    assert Remaining(x', v) == Remaining(x, v);
  }

  /** The next message of a live side is the head of its unread stream. */
  lemma {:induction false} NextIsExpected(x: Peer, y: Peer, toX: seq<Message>, v: View, w: View)
    requires Channel(x, y, toX, v, w) && !x.failed && toX != []
    ensures |Unread(x, v)| > 0 && Unread(x, v)[0] == toX[0]
  {
    assert (toX + Remaining(y, w) + Acks(v.push[|y.rx.received|..]))[0] == toX[0];
  }

  /** Only a chunk of a file still to come can complete a file. */
  lemma {:induction false} CompletesAFile(hash: Bytes -> Digest, x: Peer, v: View, m: Message)
    requires Receiving(x, v) && CanReceive(x) && |Unread(x, v)| > 0 && m == Unread(x, v)[0]
    requires Completes(hash, x, m).Some?
    ensures !x.rx.gotSentinel && |x.rx.received| < |v.theirPush|
  {
    if !x.rx.gotSentinel && |x.rx.received| == |v.theirPush| {
      SentinelRead(x, v);
    }
  }

  /** The chunk that completes a file completes the file that was sent, and it passed the limits. */
  lemma {:induction false} CompletedFile(hash: Bytes -> Digest, x: Peer, v: View, m: Message, ts: U64)
    requires GoodView(v) && Receiving(x, v) && !x.failed && Announces(hash, x.expected, v.theirs)
    requires !x.rx.gotSentinel && |x.rx.received| < |v.theirPush|
    requires m == Unread(x, v)[0] && Completes(hash, x, m).Some?
    ensures var p := v.theirPush[|x.rx.received|];
      && m.Chunk? && m.chunk.path == p && p in v.theirs && Fits(p, v.theirs[p]) && p !in x.rx.received
      && Completes(hash, x, m) == Some(v.theirs[p])
  {
    UnreadChunk(x, v);
    var n := |x.rx.received|;
    assert v.theirPush[n..][0] == v.theirPush[n] && v.theirPush[n] in v.theirPush && v.theirPush[n] in Names(v);
    NextChunk(x.rx.buffers, v.theirs, v.theirPush[n..]);
    assert v.theirPush[n] !in v.theirPush[..n];
  }

  /** Before a file is committed, its path has not been received and its backup name is new. */
  lemma {:induction false} AboutToCommit(hash: Bytes -> Digest, x: Peer, v: View, m: Message, ts: U64)
    requires PeerInv(hash, x, v) && GoodView(v) && CanReceive(x) && |Unread(x, v)| > 0 && m == Unread(x, v)[0]
    requires FreshBackup(hash, Names(v), x, m, ts) && Completes(hash, x, m).Some?
    ensures m.chunk.path in v.theirs && Completes(hash, x, m).value == v.theirs[m.chunk.path]
    ensures Committing(hash, x, v, m.chunk.path, ts)
    ensures Receive(hash, x, m, ts).0 ==
      Commit(hash, x.(rx := x.rx.(buffers := EMPTY)), m.chunk.path, v.theirs[m.chunk.path], ts)
  {
    CompletesAFile(hash, x, v, m);
    CompletedFile(hash, x, v, m, ts);
    ReceiveChunk(hash, x, v, m, ts);
  }

  lemma {:induction false} ReceiveKeeps(hash: Bytes -> Digest, x: Peer, y: Peer, toX: seq<Message>,
                                        toY: seq<Message>, v: View, ts: U64)
    requires Pair(hash, x, y, toX, toY, v) && GoodView(v)
    requires CanReceive(x) && toX != [] && FreshBackup(hash, Names(v), x, toX[0], ts)
    ensures var (x', out) := Receive(hash, x, toX[0], ts); Pair(hash, x', y, toX[1..], toY + out, v)
  {
    var m := toX[0];
    var (x', out) := Receive(hash, x, m, ts);
    NextIsExpected(x, y, toX, v, Flip(v));
    ReceiveStep(hash, x, v, m, ts);
    ReceiveIsSameSending(hash, x, m, ts);
    ReceiveFailsUnchanged(hash, x, m, ts);
    if x'.failed {
      FailKeeps(hash, x, y, toX, toY, toX[1..], v, x');
    } else {
      ReceiveKeepsFiles(hash, x, v, m, ts);
      ReadMovesInbound(x, y, toX, v, Flip(v), x');
      ReadMovesOutbound(y, x, toY, Flip(v), v, x', m, out);
    }
  }

  lemma {:induction false} ReceiveFailsUnchanged(hash: Bytes -> Digest, x: Peer, m: Message, ts: U64)
    requires !x.failed
    ensures var (x', out) := Receive(hash, x, m, ts); x'.failed ==> x' == x.(failed := true) && out == []
  {
  }

  lemma {:induction false} ReceiveKeepsFiles(hash: Bytes -> Digest, x: Peer, v: View, m: Message, ts: U64)
    requires PeerInv(hash, x, v) && GoodView(v) && CanReceive(x) && |Unread(x, v)| > 0 && m == Unread(x, v)[0]
    requires FreshBackup(hash, Names(v), x, m, ts) && !Receive(hash, x, m, ts).0.failed
    ensures var x' := Receive(hash, x, m, ts).0; FilesInv(hash, x', v) && NoLoss(v.mine, x'.files)
  {
    var x' := Receive(hash, x, m, ts).0;
    if Completes(hash, x, m).Some? {
      AboutToCommit(hash, x, v, m, ts);
      var z := x.(rx := x.rx.(buffers := EMPTY));
      SameFiles(hash, x, z, v);
      CommitKeepsFiles(hash, z, v, m.chunk.path, ts);
    } else {
      NoCommitSameFiles(hash, x, m, ts);
      SameFiles(hash, x, x', v);
    }
    FilesInvMeansNoLoss(hash, x', v);
  }

  lemma {:induction false} NoCommitSameFiles(hash: Bytes -> Digest, x: Peer, m: Message, ts: U64)
    requires Completes(hash, x, m).None?
    ensures var x' := Receive(hash, x, m, ts).0;
      x'.files == x.files && x'.log == x.log && x'.rx.received == x.rx.received && x'.loser == x.loser
  {
  }

  lemma {:induction false} AbortInCommitKeeps(hash: Bytes -> Digest, x: Peer, y: Peer, toX: seq<Message>,
                                              toY: seq<Message>, v: View,
                                              ts: U64, stage: nat)
    requires Pair(hash, x, y, toX, toY, v) && GoodView(v)
    requires CanReceive(x) && toX != [] && FreshBackup(hash, Names(v), x, toX[0], ts)
    requires Completes(hash, x, toX[0]).Some? && stage <= 3
    ensures var p, data := toX[0].chunk.path, Completes(hash, x, toX[0]).value;
      var files := CommitStage(x.files, p, data, BackupName(hash, x.loser, p, data, ts), stage);
      Pair(hash, x.(files := files, failed := true), y, toX, toY + [], v)
  {
    NextIsExpected(x, y, toX, v, Flip(v));
    var p, data := toX[0].chunk.path, Completes(hash, x, toX[0]).value;
    var files := CommitStage(x.files, p, data, BackupName(hash, x.loser, p, data, ts), stage);
    AboutToCommit(hash, x, v, toX[0], ts);
    StageMeansNoLoss(hash, x, v, p, ts, stage);
    FailKeeps(hash, x, y, toX, toY, toX, v, x.(files := files, failed := true));
  }

  lemma {:induction false} UpdateKeepsInv(hash: Bytes -> Digest, d: Deal, s: System, r: Role, x': Peer,
                                          inbox: seq<Message>, out: seq<Message>)
    requires s.client.role.Client? && s.server.role.Server? && x'.role == r
    requires Pair(hash, x', Side(s, Other(r)), inbox, Inbox(s, Other(r)) + out, ViewOf(d, r))
    ensures SystemInv(hash, d, Update(s, r, x', inbox, out))
  {
    PairOf(hash, d, Update(s, r, x', inbox, out), r);
  }

  /** Every action of either side, whether regular or an abort, keeps the invariant. */
  lemma {:induction false} ActionKeepsInv(hash: Bytes -> Digest, d: Deal, s: System, a: Action)
    requires Sound(d) && SystemInv(hash, d, s) && Enabled(hash, Universe(d), s, a)
    ensures SystemInv(hash, d, Apply(hash, Universe(d), s, a))
  {
    var r := a.role;
    SoundViews(d, r);
    PairOf(hash, d, s, r);
    match a {
      case Sends(_) => SendsKeepsInv(hash, d, s, r);
      case Receives(_, ts) => ReceivesKeepsInv(hash, d, s, r, ts);
      case Aborts(_) =>
        var x := Side(s, r);
        FailKeeps(hash, x, Side(s, Other(r)), Inbox(s, r), Inbox(s, Other(r)), Inbox(s, r), ViewOf(d, r),
          x.(failed := true));
        UpdateKeepsInv(hash, d, s, r, x.(failed := true), Inbox(s, r), []);
      case AbortsInCommit(_, ts, stage) => AbortsInCommitKeepsInv(hash, d, s, r, ts, stage);
    }
  }

  lemma {:induction false} SendsKeepsInv(hash: Bytes -> Digest, d: Deal, s: System, r: Role)
    requires Sound(d) && SystemInv(hash, d, s) && Enabled(hash, Universe(d), s, Sends(r))
    ensures SystemInv(hash, d, Apply(hash, Universe(d), s, Sends(r)))
  {
    var x := Side(s, r);
    SoundViews(d, r);
    PairOf(hash, d, s, r);
    SendKeeps(hash, x, Side(s, Other(r)), Inbox(s, r), Inbox(s, Other(r)), ViewOf(d, r));
    SendSameRole(x);
    UpdateKeepsInv(hash, d, s, r, Send(x).0, Inbox(s, r), Send(x).1);
  }

  lemma {:induction false} ReceivesKeepsInv(hash: Bytes -> Digest, d: Deal, s: System, r: Role, ts: U64)
    requires Sound(d) && SystemInv(hash, d, s) && Enabled(hash, Universe(d), s, Receives(r, ts))
    ensures SystemInv(hash, d, Apply(hash, Universe(d), s, Receives(r, ts)))
  {
    var x, inbox := Side(s, r), Inbox(s, r);
    SoundViews(d, r);
    PairOf(hash, d, s, r);
    ReceiveKeeps(hash, x, Side(s, Other(r)), inbox, Inbox(s, Other(r)), ViewOf(d, r), ts);
    ReceiveIsSameSending(hash, x, inbox[0], ts);
    var (x', out) := Receive(hash, x, inbox[0], ts);
    UpdateKeepsInv(hash, d, s, r, x', inbox[1..], out);
  }

  lemma {:induction false} AbortsInCommitKeepsInv(hash: Bytes -> Digest, d: Deal, s: System, r: Role, ts: U64,
                                                  stage: nat)
    requires Sound(d) && SystemInv(hash, d, s) && Enabled(hash, Universe(d), s, AbortsInCommit(r, ts, stage))
    ensures SystemInv(hash, d, Apply(hash, Universe(d), s, AbortsInCommit(r, ts, stage)))
  {
    var x, inbox := Side(s, r), Inbox(s, r);
    SoundViews(d, r);
    PairOf(hash, d, s, r);
    AbortInCommitKeeps(hash, x, Side(s, Other(r)), inbox, Inbox(s, Other(r)), ViewOf(d, r), ts, stage);
    var p, data := inbox[0].chunk.path, Completes(hash, x, inbox[0]).value;
    var files := CommitStage(x.files, p, data, BackupName(hash, x.loser, p, data, ts), stage);
    UpdateKeepsInv(hash, d, s, r, x.(files := files, failed := true), inbox, []);
  }

  lemma {:induction false} RunKeepsInv(hash: Bytes -> Digest, d: Deal, states: seq<System>, actions: seq<Action>,
                                       i: nat)
    requires Sound(d) && Run(hash, Universe(d), states, actions) && Start(hash, d, states[0]) && i < |states|
    ensures SystemInv(hash, d, states[i])
  {
    StartInv(hash, d, states[0]);
    StepsKeepInv(hash, d);
    InvariantAlongRun(Next(hash, Universe(d)), s => SystemInv(hash, d, s), states, actions, i);
  }

  lemma {:induction false} StepsKeepInv(hash: Bytes -> Digest, d: Deal)
    requires Sound(d)
    ensures Preserves(Next(hash, Universe(d)), s => SystemInv(hash, d, s))
  {
    forall s, a, s' | SystemInv(hash, d, s) && Next(hash, Universe(d))(s, a, s') ensures SystemInv(hash, d, s') {
      ActionKeepsInv(hash, d, s, a);
    }
  }
}
