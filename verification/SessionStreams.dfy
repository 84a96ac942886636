/**
 The message streams of a session. What a side has not read yet is always what is queued for it,
 followed by what the other side has still to push, followed by the acknowledgements still to come.
 */
module SessionStreams {
  import opened Basics
  import opened Chunks
  import opened Session

  /** One side's view of a deal. */
  datatype View = View(mine: Files, push: seq<Path>, theirs: Files, theirPush: seq<Path>)

  ghost function ViewOf(d: Deal, r: Role): View {
    if r.Client? then View(d.client, d.clientPush, d.server, d.serverPush)
    else View(d.server, d.serverPush, d.client, d.clientPush)
  }

  ghost function Names(v: View): set<Path> {
    v.mine.Keys + v.theirs.Keys
  }

  ghost predicate GoodView(v: View) {
    && Half(v.mine, v.push) && Half(v.theirs, v.theirPush)
    && OrdinaryNames(Names(v))
  }

  // ----- streams

  ghost predicate Pushable(files: Files, ps: seq<Path>, k: nat) {
    && (forall p :: p in ps ==> p in files)
    && (if ps == [] then k == 0 else k <= |files[ps[0]]|)
  }

  /** The chunks of a list of files, the first of them from offset `k` on. */
  ghost function Rest(files: Files, ps: seq<Path>, k: nat): seq<Message>
    requires Pushable(files, ps, k)
    decreases |ps|, if ps == [] then 0 else |files[ps[0]]| - k
  {
    if ps == [] then []
    else
      var data := files[ps[0]];
      var end := ChunkEnd(data, k);
      [Chunk(ChunkAt(ps[0], data, k))] +
      if end < |data| then Rest(files, ps, end) else Rest(files, ps[1..], 0)
  }

  ghost function Acks(ps: seq<Path>): seq<Message> {
    seq(|ps|, i requires 0 <= i < |ps| => Ack(ps[i], true))
  }

  /** What a side has still to push. */
  ghost function Remaining(x: Peer, v: View): seq<Message>
    requires Pushable(v.mine, x.tx.todo, x.tx.offset)
  {
    if x.tx.sentinelSent then [] else Rest(v.mine, x.tx.todo, x.tx.offset) + [SENTINEL]
  }

  /** Everything a side will ever read from here on if the other side completes its part. */
  ghost function Unread(x: Peer, v: View): seq<Message>
    requires Receiving(x, v)
  {
    if x.rx.gotSentinel then Acks(v.push[|x.rx.acked|..])
    else Rest(v.theirs, v.theirPush[|x.rx.received|..], x.rx.buffers.buffered) + [SENTINEL] + Acks(v.push)
  }

  // ----- where a side is in its two streams

  ghost predicate Sending(x: Peer, v: View) {
    && x.tx.pushed + x.tx.todo == v.push
    && Pushable(v.mine, x.tx.todo, x.tx.offset)
    && (x.tx.todo != [] ==> x.tx.offset == 0 || x.tx.offset < |v.mine[x.tx.todo[0]]|)
    && (x.tx.sentinelSent ==> x.tx.todo == [])
    && (!x.tx.sentinelSent ==>
      x.files == v.mine && x.rx.received == [] && x.rx.buffers == EMPTY && x.rx.acked == {} && !x.rx.gotSentinel)
  }

  /** Nothing is buffered, or a proper prefix of the next file is. */
  ghost predicate Partial(b: Buffers, files: Files, ps: seq<Path>) {
    || b == EMPTY
    || (ps != [] && ps[0] in files && 0 < b.buffered < |files[ps[0]]| &&
        b.incoming == map[ps[0] := files[ps[0]][..b.buffered]])
  }

  ghost predicate Receiving(x: Peer, v: View) {
    && x.pulls == |v.theirPush|
    && |x.rx.received| <= |v.theirPush| && x.rx.received == v.theirPush[..|x.rx.received|]
    && Pushable(v.theirs, v.theirPush[|x.rx.received|..], x.rx.buffers.buffered)
    && Partial(x.rx.buffers, v.theirs, v.theirPush[|x.rx.received|..])
    && (x.rx.gotSentinel ==> |x.rx.received| == |v.theirPush| && x.rx.buffers == EMPTY)
    && |x.rx.acked| <= |v.push| && x.rx.acked == ToSet(v.push[..|x.rx.acked|])
    && (x.rx.acked != {} ==> x.rx.gotSentinel && x.role.Client?)
  }

  /** The channel from `y` to `x`; a side that has failed reads no more. */
  ghost predicate Channel(x: Peer, y: Peer, queue: seq<Message>, v: View, w: View) {
    && Receiving(x, v) && Receiving(y, w) && Sending(y, w)
    && v.push == w.theirPush
    && (!x.failed ==> queue + Remaining(y, w) + Acks(v.push[|y.rx.received|..]) == Unread(x, v))
  }

  // ----- one step of sending

  lemma {:induction false} SendStep(x: Peer, v: View)
    requires Half(v.mine, v.push) && Sending(x, v) && CanSend(x)
    ensures var (x', out) := Send(x);
      && Sending(x', v)
      && |out| == 1 && Remaining(x, v) == out + Remaining(x', v)
      && x' == x.(tx := x'.tx)
  {
    if x.tx.todo != [] {
      assert x.tx.pushed + x.tx.todo == (x.tx.pushed + [x.tx.todo[0]]) + x.tx.todo[1..];
      assert x.tx.todo[0] in x.tx.todo;
    }
  }

  lemma {:induction false} SendSameRole(x: Peer)
    requires CanSend(x)
    ensures Send(x).0 == x.(tx := Send(x).0.tx)
  {
  }

  lemma {:induction false} SendMovesChannel(x: Peer, y: Peer, queue: seq<Message>, v: View, w: View)
    requires Channel(x, y, queue, v, w) && Half(w.mine, w.push) && CanSend(y)
    ensures var (y', out) := Send(y); Channel(x, y', queue + out, v, w)
  {
    SendStep(y, w);
    var (y', out) := Send(y);
    if !x.failed {
      assert queue + Remaining(y, w) == (queue + out) + Remaining(y', w);
    }
  }

  // ----- one step of receiving

  /** The next message, when files are still to come, is the next chunk of the current file. */
  lemma {:induction false} UnreadChunk(x: Peer, v: View)
    requires Receiving(x, v) && !x.rx.gotSentinel && |x.rx.received| < |v.theirPush|
    ensures var p := v.theirPush[|x.rx.received|];
      && p in v.theirs && x.rx.buffers.buffered <= |v.theirs[p]|
      && |Unread(x, v)| > 0 && Unread(x, v)[0] == Chunk(ChunkAt(p, v.theirs[p], x.rx.buffers.buffered))
  {
    var ps := v.theirPush[|x.rx.received|..];
    assert ps[0] == v.theirPush[|x.rx.received|];
  }

  /** How the buffers change when the next chunk of the current file arrives. */
  lemma {:induction false} NextChunk(b: Buffers, files: Files, ps: seq<Path>)
    requires ps != [] && ps[0] in files && Partial(b, files, ps) && b.buffered <= |files[ps[0]]|
    ensures var data := files[ps[0]];
      var c, end := ChunkAt(ps[0], data, b.buffered), ChunkEnd(data, b.buffered);
      Accept(b, c) ==
        match ValidateChunk(c, |b.incoming|, b.buffered)
        case Some(e) => Rejected(e)
        case None =>
          if end < |data| then Stored(Buffers(map[ps[0] := data[..end]], end))
          else Complete(EMPTY, data)
  {
    var p, data := ps[0], files[ps[0]];
    var c, end := ChunkAt(p, data, b.buffered), ChunkEnd(data, b.buffered);
    assert Held(b, p) == data[..b.buffered];
    AcceptInOrder(b, c);
    assert data[..b.buffered] + c.data == data[..end];
    assert b.incoming[p := data[..end]] == map[p := data[..end]];
    assert b.incoming - {p} == map[];
    assert end == |data| ==> data[..end] == data;
  }

  /** A chunk that does not complete its file moves one message from the unread stream to the buffer. */
  lemma {:induction false} StoredChunk(x: Peer, v: View)
    requires Receiving(x, v) && !x.rx.gotSentinel && |x.rx.received| < |v.theirPush|
    requires var data := v.theirs[v.theirPush[|x.rx.received|]]; ChunkEnd(data, x.rx.buffers.buffered) < |data|
    ensures var p := v.theirPush[|x.rx.received|];
      var end := ChunkEnd(v.theirs[p], x.rx.buffers.buffered);
      var x' := x.(rx := x.rx.(buffers := Buffers(map[p := v.theirs[p][..end]], end)));
      Receiving(x', v) && Unread(x, v) == [Unread(x, v)[0]] + Unread(x', v)
  {
    UnreadChunk(x, v);
  }

  /** The chunk that completes its file moves on to the next file. */
  lemma {:induction false} LastChunk(x: Peer, v: View, x': Peer)
    requires Half(v.theirs, v.theirPush) && Receiving(x, v) && !x.rx.gotSentinel && |x.rx.received| < |v.theirPush|
    requires var data := v.theirs[v.theirPush[|x.rx.received|]]; ChunkEnd(data, x.rx.buffers.buffered) == |data|
    requires x'.rx.received == x.rx.received + [v.theirPush[|x.rx.received|]] && x'.rx.buffers == EMPTY
    requires x'.rx.acked == x.rx.acked && x'.rx.gotSentinel == x.rx.gotSentinel && x'.role == x.role &&
      x'.pulls == x.pulls
    ensures Receiving(x', v) && Unread(x, v) == [Unread(x, v)[0]] + Unread(x', v)
  {
    UnreadChunk(x, v);
    var n := |x.rx.received|;
    assert v.theirPush[n..][1..] == v.theirPush[n + 1..];
    assert v.theirPush[..n + 1] == v.theirPush[..n] + [v.theirPush[n]];
    assert forall p :: p in v.theirPush[n + 1..] ==> p in v.theirPush;
  }

  lemma {:induction false} SentinelRead(x: Peer, v: View)
    requires Receiving(x, v) && !x.rx.gotSentinel && |x.rx.received| == |v.theirPush|
    ensures x.rx.buffers == EMPTY && Unread(x, v) == [SENTINEL] + Unread(x.(rx := x.rx.(gotSentinel := true)), v)
    ensures Receiving(x.(rx := x.rx.(gotSentinel := true)), v)
  {
    assert v.theirPush[|x.rx.received|..] == [];
    assert v.push[|x.rx.acked|..] == v.push;
  }

  lemma {:induction false} AckRead(x: Peer, v: View)
    requires Distinct(v.push) && Receiving(x, v) && x.rx.gotSentinel && x.role.Client? && |x.rx.acked| < |v.push|
    ensures var p := v.push[|x.rx.acked|];
      var x' := x.(rx := x.rx.(acked := x.rx.acked + {p}));
      Receiving(x', v) && Unread(x, v) == [Ack(p, true)] + Unread(x', v)
  {
    var n := |x.rx.acked|;
    GrowingPrefix(v.push, n);
    AcksHead(v.push, n);
  }

  lemma {:induction false} AcksHead(ps: seq<Path>, n: nat)
    requires n < |ps|
    ensures Acks(ps[n..]) == [Ack(ps[n], true)] + Acks(ps[n + 1..])
  {
    assert ps[n..] == [ps[n]] + ps[n + 1..];
  }

  lemma {:induction false} GrowingPrefix(ps: seq<Path>, n: nat)
    requires Distinct(ps) && n < |ps|
    ensures ps[n] !in ToSet(ps[..n]) && ToSet(ps[..n + 1]) == ToSet(ps[..n]) + {ps[n]}
  {
    assert ps[..n + 1] == ps[..n] + [ps[n]];
  }

  // ----- handling one message

  /** A side's bookkeeping moves by exactly the message read: nothing, or one more file and its ack. */
  ghost predicate Reads(x: Peer, v: View, m: Message, x': Peer, out: seq<Message>)
    requires Receiving(x, v)
  {
    && (x'.failed || (Receiving(x', v) && Unread(x, v) == [m] + Unread(x', v)))
    && (|| (x'.rx.received == x.rx.received && out == [])
        || (!x'.failed && |x.rx.received| < |v.theirPush| &&
            x'.rx.received == x.rx.received + [v.theirPush[|x.rx.received|]] &&
            out == [Ack(v.theirPush[|x.rx.received|], true)]))
  }

  /** Reading keeps a side's sending half as it is. */
  ghost predicate SameSending(x: Peer, x': Peer) {
    && x'.role == x.role && x'.loser == x.loser && x'.expected == x.expected && x'.pulls == x.pulls
    && x'.tx == x.tx
  }

  lemma {:induction false} ReceiveIsSameSending(hash: Bytes -> Digest, x: Peer, m: Message, ts: U64)
    ensures SameSending(x, Receive(hash, x, m, ts).0)
  {
  }

  lemma {:induction false} ReceiveChunk(hash: Bytes -> Digest, x: Peer, v: View, m: Message, ts: U64)
    requires GoodView(v) && Receiving(x, v) && !x.rx.gotSentinel && |x.rx.received| < |v.theirPush|
    requires m == Unread(x, v)[0] && Announces(hash, x.expected, v.theirs) && !x.failed
    ensures var (x', out) := Receive(hash, x, m, ts); Reads(x, v, m, x', out)
    ensures var p := v.theirPush[|x.rx.received|];
      ChunkEnd(v.theirs[p], x.rx.buffers.buffered) == |v.theirs[p]| && !Receive(hash, x, m, ts).0.failed ==>
        Receive(hash, x, m, ts).0 == Commit(hash, x.(rx := x.rx.(buffers := EMPTY)), p, v.theirs[p], ts) &&
        Completes(hash, x, m) == Some(v.theirs[p])
    ensures Receive(hash, x, m, ts).1 == [] ==>
      Completes(hash, x, m).None? && Receive(hash, x, m, ts).0.files == x.files &&
        Receive(hash, x, m, ts).0.log == x.log
  {
    UnreadChunk(x, v);
    var p := v.theirPush[|x.rx.received|];
    assert p in v.theirPush && p in Names(v);
    ReceivedNext(x, v, m);
    if ChunkEnd(v.theirs[p], x.rx.buffers.buffered) < |v.theirs[p]| {
      StoringChunk(hash, x, m, ts);
      StoredChunk(x, v);
    } else {
      CompletingChunk(hash, x, m, p, v.theirs[p], ts);
      LastChunk(x, v, Commit(hash, x.(rx := x.rx.(buffers := EMPTY)), p, v.theirs[p], ts));
    }
  }

  /** What the buffers make of the next chunk: it is rejected, stored behind what is held, or completes its file. */
  lemma {:induction false} ReceivedNext(x: Peer, v: View, m: Message)
    requires Receiving(x, v) && !x.rx.gotSentinel && |x.rx.received| < |v.theirPush|
    requires m == Unread(x, v)[0]
    ensures var p := v.theirPush[|x.rx.received|];
      && m.Chunk? && m.chunk.path == p && p in v.theirs && x.rx.buffers.buffered <= |v.theirs[p]|
      && var end := ChunkEnd(v.theirs[p], x.rx.buffers.buffered);
         || Accept(x.rx.buffers, m.chunk).Rejected?
         || Accept(x.rx.buffers, m.chunk) ==
              if end < |v.theirs[p]| then Stored(Buffers(map[p := v.theirs[p][..end]], end))
              else Complete(EMPTY, v.theirs[p])
  {
    UnreadChunk(x, v);
    var ps := v.theirPush[|x.rx.received|..];
    assert ps[0] == v.theirPush[|x.rx.received|];
    NextChunk(x.rx.buffers, v.theirs, ps);
  }

  lemma {:induction false} StoringChunk(hash: Bytes -> Digest, x: Peer, m: Message, ts: U64)
    requires m.Chunk? && m.chunk.path != DATABASE && !x.failed
    requires Accept(x.rx.buffers, m.chunk).Stored? || Accept(x.rx.buffers, m.chunk).Rejected?
    ensures Completes(hash, x, m).None?
    ensures Receive(hash, x, m, ts) ==
      if Accept(x.rx.buffers, m.chunk).Rejected? then (x.(failed := true), [])
      else (x.(rx := x.rx.(buffers := Accept(x.rx.buffers, m.chunk).buffers)), [])
  {
  }

  /** A chunk that completes a file with the announced digest has it committed. */
  lemma {:induction false} CompletingChunk(hash: Bytes -> Digest, x: Peer, m: Message, p: Path, data: Bytes, ts: U64)
    requires m.Chunk? && m.chunk.path == p && p != DATABASE && !x.failed
    requires p in x.expected ==> x.expected[p] == hash(data)
    requires Accept(x.rx.buffers, m.chunk) == Complete(EMPTY, data) || Accept(x.rx.buffers, m.chunk).Rejected?
    ensures if Accept(x.rx.buffers, m.chunk).Rejected?
      then Receive(hash, x, m, ts) == (x.(failed := true), []) && Completes(hash, x, m).None?
      else Receive(hash, x, m, ts) == (Commit(hash, x.(rx := x.rx.(buffers := EMPTY)), p, data, ts), [Ack(p, true)]) &&
           Completes(hash, x, m) == Some(data)
  {
  }

  /** Whatever a live side reads next is the head of its unread stream, and it handles it as planned. */
  lemma {:induction false} ReceiveStep(hash: Bytes -> Digest, x: Peer, v: View, m: Message, ts: U64)
    requires GoodView(v) && Receiving(x, v) && Sending(x, v) && CanReceive(x)
    requires Announces(hash, x.expected, v.theirs)
    requires |Unread(x, v)| > 0 ==> m == Unread(x, v)[0]
    ensures |Unread(x, v)| > 0
    ensures var (x', out) := Receive(hash, x, m, ts); Reads(x, v, m, x', out)
  {
    if x.rx.gotSentinel {
      assert x.tx.pushed == v.push;
      AckRead(x, v);
      assert v.push[|x.rx.acked|] in v.push && v.push[|x.rx.acked|] in Names(v);
    } else if |x.rx.received| < |v.theirPush| {
      UnreadChunk(x, v);
      ReceiveChunk(hash, x, v, m, ts);
    } else {
      SentinelRead(x, v);
    }
  }

  lemma {:induction false} DropHead<T>(queue: seq<T>, a: seq<T>, b: seq<T>, rest: seq<T>)
    requires queue != [] && queue + a + b == [queue[0]] + rest
    ensures queue[1..] + a + b == rest
  {
    assert queue[1..] + a + b == (queue + a + b)[1..];
    assert rest == ([queue[0]] + rest)[1..];
  }

  lemma {:induction false} MoveAck(queue: seq<Message>, ps: seq<Path>, n: nat)
    requires n < |ps|
    ensures queue + [] + Acks(ps[n..]) == (queue + [Ack(ps[n], true)]) + [] + Acks(ps[n + 1..])
  {
    AcksHead(ps, n);
  }

  /** Reading moves the channel it reads from. */
  lemma {:induction false} ReadMovesInbound(x: Peer, y: Peer, queue: seq<Message>, v: View, w: View, x': Peer)
    requires Channel(x, y, queue, v, w) && !x.failed && queue != [] && Receiving(x', v)
    requires Unread(x, v) == [queue[0]] + Unread(x', v)
    ensures Channel(x', y, queue[1..], v, w)
  {
    DropHead(queue, Remaining(y, w), Acks(v.push[|y.rx.received|..]), Unread(x', v));
  }

  /** What is written back moves the other channel: an acknowledgement that was due is now queued. */
  lemma {:induction false} ReadMovesOutbound(x: Peer, y: Peer, queue: seq<Message>, v: View, w: View, y': Peer,
                                             m: Message, out: seq<Message>)
    requires Channel(x, y, queue, v, w) && y.tx.sentinelSent && SameSending(y, y') && Reads(y, w, m, y', out)
    requires y'.failed ==> y' == y.(failed := true)
    ensures Channel(x, y', queue + out, v, w)
  {
    if out != [] {
      MoveAck(queue, v.push, |y.rx.received|);
    } else {
      assert queue + out == queue;
    }
  }
}
