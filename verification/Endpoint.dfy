/**
 One end of a session as the program runs it: an object whose fields the push phase and the receive
 loop update in place. Every method is tied to the step functions of the session model.
 */
module Endpoint {
  import opened Basics
  import opened Chunks
  import opened BackupNames
  import opened Session
  import opened SessionStreams

  function ChunkMessages(cs: seq<FileChunk>): seq<Message> {
    seq(|cs|, i requires 0 <= i < |cs| => Chunk(cs[i]))
  }

  // ----- the phases as functions of the state at their start

  /** The state after the push phase, and all messages written, after those already `sent`. */
  ghost function SendAll(x: Peer, sent: seq<Message>): (Peer, seq<Message>)
    decreases !x.tx.sentinelSent, |x.tx.todo|,
              if x.tx.todo != [] && x.tx.todo[0] in x.files && x.tx.offset <= |x.files[x.tx.todo[0]]|
              then |x.files[x.tx.todo[0]]| - x.tx.offset else 0
  {
    if !CanSend(x) then (x, sent)
    else SendAll(Send(x).0, sent + Send(x).1)
  }

  /** Read messages until the exit condition holds, the side fails, or nothing more arrives. */
  ghost function Drain(hash: Bytes -> Digest, x: Peer, inbox: seq<Message>, clock: seq<U64>,
                       sent: seq<Message>): (Peer, seq<Message>)
    requires |clock| == |inbox|
    decreases |inbox|
  {
    if x.failed || ExitReady(x) || inbox == [] then (x, sent)
    else
      var (x', out) := Receive(hash, x, inbox[0], clock[0]);
      Drain(hash, x', inbox[1..], clock[1..], sent + out)
  }

  /** A file that failed its integrity check is answered with a refusal. */
  predicate Refused(out: seq<Message>) {
    exists m :: m in out && m.Ack? && !m.success
  }

  /** As `Drain`, but the exit condition is tested after a message, and not after a refused file. */
  ghost function ServerDrain(hash: Bytes -> Digest, x: Peer, inbox: seq<Message>, clock: seq<U64>,
                             sent: seq<Message>): (Peer, seq<Message>)
    requires |clock| == |inbox|
    decreases |inbox|
  {
    if x.failed || inbox == [] then (x, sent)
    else
      var (x', out) := Receive(hash, x, inbox[0], clock[0]);
      if ExitReady(x') && !Refused(out) then (x', sent + out)
      else ServerDrain(hash, x', inbox[1..], clock[1..], sent + out)
  }

  lemma {:induction false} ServerDrainExtends(hash: Bytes -> Digest, x: Peer, inbox: seq<Message>, clock: seq<U64>,
                                              sent: seq<Message>)
    requires |clock| == |inbox|
    ensures sent <= ServerDrain(hash, x, inbox, clock, sent).1
    decreases |inbox|
  {
    if !x.failed && inbox != [] {
      var (x', out) := Receive(hash, x, inbox[0], clock[0]);
      assert sent <= sent + out;
      ServerDrainExtends(hash, x', inbox[1..], clock[1..], sent + out);
    }
  }

  /** Unless a file is refused, testing after a message and testing before the next read come to the same. */
  lemma {:induction false} ServerDrainIsDrain(hash: Bytes -> Digest, x: Peer, inbox: seq<Message>, clock: seq<U64>,
                                              sent: seq<Message>)
    requires |clock| == |inbox| && !ExitReady(x)
    requires !Refused(ServerDrain(hash, x, inbox, clock, sent).1)
    ensures ServerDrain(hash, x, inbox, clock, sent) == Drain(hash, x, inbox, clock, sent)
    decreases |inbox|
  {
    if !x.failed && inbox != [] {
      var (x', out) := Receive(hash, x, inbox[0], clock[0]);
      if ExitReady(x') && !Refused(out) {
        assert Drain(hash, x', inbox[1..], clock[1..], sent + out) == (x', sent + out);
      } else {
        ServerDrainExtends(hash, x', inbox[1..], clock[1..], sent + out);
        NotRefusedInPrefix(sent, out, ServerDrain(hash, x', inbox[1..], clock[1..], sent + out).1);
        ServerDrainIsDrain(hash, x', inbox[1..], clock[1..], sent + out);
      }
    }
  }

  lemma {:induction false} NotRefusedInPrefix(a: seq<Message>, b: seq<Message>, all: seq<Message>)
    requires a + b <= all && !Refused(all)
    ensures !Refused(b)
  {
    forall m | m in b ensures m in all {
      var i :| 0 <= i < |b| && b[i] == m;
      assert all[|a| + i] == (a + b)[|a| + i] == m;
    }
  }

  // ----- what the push phase writes

  /** The files of a list that can be read. */
  ghost function Readable(files: Files, ps: seq<Path>): seq<Path> {
    if ps == [] then []
    else (if ps[0] in files then [ps[0]] else []) + Readable(files, ps[1..])
  }

  /** The chunks of the files that can be read, file after file. */
  ghost function AllChunks(files: Files, ps: seq<Path>): seq<Message> {
    if ps == [] then []
    else
      (if ps[0] in files then ChunkMessages(ChunksFrom(ps[0], files[ps[0]], 0)) else []) + AllChunks(files, ps[1..])
  }

  /** The push phase writes the chunks of every file that can be read, in order, and then the sentinel. */
  lemma {:induction false} PushPhase(x: Peer, sent: seq<Message>)
    requires !x.failed && !x.tx.sentinelSent && x.tx.offset == 0
    ensures SendAll(x, sent).0.tx.pushed == x.tx.pushed + Readable(x.files, x.tx.todo)
    ensures SendAll(x, sent).1 == sent + AllChunks(x.files, x.tx.todo) + [SENTINEL]
    decreases |x.tx.todo|
  {
    if x.tx.todo == [] {
      LastSend(x, sent);
    } else if x.tx.todo[0] !in x.files {
      var after := x.(tx := x.tx.(todo := x.tx.todo[1..]));
      assert Send(x) == (after, []) && sent + [] == sent;
      PushPhase(after, sent);
    } else {
      var p := x.tx.todo[0];
      var cs := ChunkMessages(ChunksFrom(p, x.files[p], 0));
      var after := x.(tx := Outgoing(x.tx.todo[1..], 0, x.tx.pushed + [p], x.tx.pushedBytes + |x.files[p]|, false));
      SendAllFile(x, sent, 0);
      PushPhase(after, sent + cs);
      assert (sent + cs) + AllChunks(x.files, x.tx.todo[1..]) == sent + AllChunks(x.files, x.tx.todo);
    }
  }

  lemma {:induction false} LastSend(x: Peer, sent: seq<Message>)
    requires !x.failed && !x.tx.sentinelSent && x.tx.todo == []
    ensures SendAll(x, sent) == (x.(tx := x.tx.(sentinelSent := true)), sent + [SENTINEL])
  {
    var after := x.(tx := x.tx.(sentinelSent := true));
    assert SendAll(after, sent + [SENTINEL]) == (after, sent + [SENTINEL]);
  }

  // ----- acknowledgements

  /** The paths that a list of messages acknowledges as taken, in order. */
  ghost function Acknowledged(ms: seq<Message>): seq<Path> {
    if ms == [] then []
    else
      var n := |ms| - 1;
      Acknowledged(ms[..n]) + if ms[n].Ack? && ms[n].success then [ms[n].path] else []
  }

  lemma {:induction false} AcknowledgedConcat(a: seq<Message>, b: seq<Message>)
    ensures Acknowledged(a + b) == Acknowledged(a) + Acknowledged(b)
  {
    if b == [] {
      assert a + b == a;
    } else {
      var n := |b| - 1;
      AcknowledgedConcat(a, b[..n]);
      assert (a + b)[..|a| + n] == a + b[..n] && (a + b)[|a| + n] == b[n];
    }
  }

  /** What is answered to a message: a taken file is acknowledged, a refused one refused, all else is silence. */
  lemma {:induction false} ReceiveAcknowledges(hash: Bytes -> Digest, x: Peer, m: Message, ts: U64)
    ensures var (x', out) := Receive(hash, x, m, ts);
      && x'.rx.received == x.rx.received + Acknowledged(out)
      && (forall a :: a in out ==> a.Ack? && m.Chunk? && a.path == m.chunk.path) && |out| <= 1
  {
    var (x', out) := Receive(hash, x, m, ts);
    if |out| == 1 {
      assert out[..0] == [] && Acknowledged(out[..0]) == [];
    }
  }

  /** What a loop acknowledges is what it has taken. */
  lemma {:induction false} DrainAcknowledges(hash: Bytes -> Digest, x: Peer, inbox: seq<Message>, clock: seq<U64>,
                                             sent: seq<Message>, before: seq<Path>)
    requires |clock| == |inbox| && x.rx.received == before + Acknowledged(sent)
    ensures var (y, replies) := Drain(hash, x, inbox, clock, sent); y.rx.received == before + Acknowledged(replies)
    decreases |inbox|
  {
    if !x.failed && !ExitReady(x) && inbox != [] {
      var (x', out) := Receive(hash, x, inbox[0], clock[0]);
      ReceiveAcknowledges(hash, x, inbox[0], clock[0]);
      AcknowledgedConcat(sent, out);
      DrainAcknowledges(hash, x', inbox[1..], clock[1..], sent + out, before);
    }
  }

  lemma {:induction false} ServerDrainAcknowledges(hash: Bytes -> Digest, x: Peer, inbox: seq<Message>,
                                                   clock: seq<U64>, sent: seq<Message>, before: seq<Path>)
    requires |clock| == |inbox| && x.rx.received == before + Acknowledged(sent)
    ensures var (y, replies) := ServerDrain(hash, x, inbox, clock, sent);
      y.rx.received == before + Acknowledged(replies)
    decreases |inbox|
  {
    if !x.failed && inbox != [] {
      var (x', out) := Receive(hash, x, inbox[0], clock[0]);
      ReceiveAcknowledges(hash, x, inbox[0], clock[0]);
      AcknowledgedConcat(sent, out);
      ServerDrainAcknowledges(hash, x', inbox[1..], clock[1..], sent + out, before);
    }
  }

  /** Sending a file in chunks is sending it chunk by chunk. */
  lemma {:induction false} SendAllFile(x: Peer, sent: seq<Message>, k: nat)
    requires !x.failed && !x.tx.sentinelSent && x.tx.todo != [] && x.tx.todo[0] in x.files
    requires x.tx.offset == k <= |x.files[x.tx.todo[0]]|
    ensures var p := x.tx.todo[0];
      var after := x.(tx := Outgoing(x.tx.todo[1..], 0, x.tx.pushed + [p], x.tx.pushedBytes + |x.files[p]|, false));
      SendAll(x, sent) == SendAll(after, sent + ChunkMessages(ChunksFrom(p, x.files[p], k)))
    decreases |x.files[x.tx.todo[0]]| - k
  {
    var p, data := x.tx.todo[0], x.files[x.tx.todo[0]];
    var end, c := ChunkEnd(data, k), ChunkAt(p, data, k);
    var cs := ChunksFrom(p, data, k);
    assert (sent + [Chunk(c)]) + ChunkMessages(cs[1..]) == sent + ChunkMessages(cs);
    if end < |data| {
      SendAllFile(x.(tx := x.tx.(offset := end)), sent + [Chunk(c)], end);
      assert cs[1..] == ChunksFrom(p, data, end);
    } else {
      assert cs[1..] == [];
      assert sent + [Chunk(c)] == sent + ChunkMessages(cs);
    }
  }

  /** The push phase writes exactly the stream the other side is waiting for, sentinel included. */
  lemma {:induction false} PushWritesRemaining(x: Peer, v: View, sent: seq<Message>)
    requires Half(v.mine, v.push) && Sending(x, v) && !x.failed
    ensures SendAll(x, sent).1 == sent + Remaining(x, v)
    ensures SendAll(x, sent).0.tx.sentinelSent && Sending(SendAll(x, sent).0, v)
    decreases |Remaining(x, v)|
  {
    if x.tx.sentinelSent {
      assert sent + [] == sent;
    } else {
      SendStep(x, v);
      var (x', out) := Send(x);
      SendSameRole(x);
      PushWritesRemaining(x', v, sent + out);
      assert (sent + out) + Remaining(x', v) == sent + (out + Remaining(x', v));
    }
  }

  /** Grow a buffer with zeros up to the end of a piece if need be, then copy the piece over it, byte by byte. */
  method WriteAt(entry: Bytes, offset: nat, piece: Bytes) returns (result: Bytes)
    ensures |result| >= offset + |piece| && result[offset..offset + |piece|] == piece
    ensures forall i :: 0 <= i < |result| && !(offset <= i < offset + |piece|) ==>
      result[i] == if i < |entry| then entry[i] else 0
    ensures result == Splice(entry, offset, piece)
  {
    var end := offset + |piece|;
    var buffer := new Byte[if end > |entry| then end else |entry|](_ => 0);
    for i := 0 to |entry|
      invariant forall j :: 0 <= j < i ==> buffer[j] == entry[j]
      invariant forall j :: i <= j < buffer.Length ==> buffer[j] == 0
    {
      buffer[i] := entry[i];
    }
    for i := 0 to |piece|
      invariant forall j :: 0 <= j < i ==> buffer[offset + j] == piece[j]
      invariant forall j :: 0 <= j < buffer.Length && !(offset <= j < offset + i) ==>
        buffer[j] == if j < |entry| then entry[j] else 0
    {
      buffer[offset + i] := piece[i];
    }
    assert forall j :: offset <= j < end ==> buffer[j] == buffer[offset + (j - offset)];
    result := buffer[..];
  }

  class Endpoint {
    const hash: Bytes -> Digest
    const role: Role
    const loser: string
    const expected: map<Path, Digest>
    const pulls: nat
    var files: Files
    var pushed: seq<Path>
    var pushedBytes: nat
    var sentinelSent: bool
    var incomingFiles: map<Path, Bytes>
    var bufferedBytes: nat
    var ackedPushes: set<Path>
    var receivedPaths: seq<Path>
    var gotEof: bool
    var pulledBytes: nat
    var conflicts: seq<Path>
    ghost var backups: map<Path, U64>
    var failed: bool

    constructor (hash: Bytes -> Digest, role: Role, files: Files, loser: string, expected: map<Path, Digest>,
                 pulls: nat)
      ensures this.hash == hash
      ensures forall push :: State(push) == NewPeer(role, files, loser, expected, push, pulls)
    {
      this.hash, this.role, this.loser, this.expected, this.pulls := hash, role, loser, expected, pulls;
      this.files := files;
      pushed, pushedBytes, sentinelSent := [], 0, false;
      incomingFiles, bufferedBytes, ackedPushes, receivedPaths, gotEof := map[], 0, {}, [], false;
      pulledBytes, conflicts, backups, failed := 0, [], map[], false;
    }

    /** The state of this end in the session model, given the files it has still to push. */
    ghost function State(todo: seq<Path>): Peer
      reads this
    {
      Peer(role, loser, expected, pulls, files,
           Outgoing(todo, 0, pushed, pushedBytes, sentinelSent),
           Incoming(Buffers(incomingFiles, bufferedBytes), ackedPushes, receivedPaths, gotEof),
           Log(pulledBytes, conflicts, backups), failed)
    }

    /** Push one file if it can be read; a file that cannot be read is skipped. */
    method PushFile(path: Path, ghost rest: seq<Path>) returns (sent: seq<Message>)
      requires !failed && !sentinelSent
      modifies this`pushed, this`pushedBytes
      ensures forall before :: SendAll(old(State([path] + rest)), before) == SendAll(State(rest), before + sent)
    {
      ghost var start := State([path] + rest);
      assert ([path] + rest)[1..] == rest;
      if path !in files {
        forall before ensures SendAll(start, before) == SendAll(State(rest), before + []) {
          assert before + [] == before;
        }
        return [];
      }
      var data := files[path];
      var cs := SendFileChunks(path, data);
      sent := ChunkMessages(cs);
      pushed := pushed + [path];
      pushedBytes := pushedBytes + |data|;
      forall before ensures SendAll(start, before) == SendAll(State(rest), before + sent) {
        SendAllFile(start, before, 0);
      }
    }

    /** The push phase: every file in turn, then the sentinel. */
    method Push(toPush: seq<Path>) returns (sent: seq<Message>)
      requires !failed && !sentinelSent
      modifies this`pushed, this`pushedBytes, this`sentinelSent
      ensures sentinelSent && pushed == old(pushed) + Readable(files, toPush)
      ensures sent == AllChunks(files, toPush) + [SENTINEL]
      ensures (State([]), sent) == SendAll(old(State(toPush)), [])
    {
      sent := [];
      ghost var start := State(toPush);
      assert toPush[0..] == toPush;
      for i := 0 to |toPush|
        invariant !failed && !sentinelSent
        invariant SendAll(start, []) == SendAll(State(toPush[i..]), sent)
      {
        assert toPush[i..] == [toPush[i]] + toPush[i + 1..];
        var out := PushFile(toPush[i], toPush[i + 1..]);
        sent := sent + out;
      }
      assert toPush[|toPush|..] == [];
      PushPhase(start, []);
      LastSend(State([]), sent);
      sent := sent + [SENTINEL];
      sentinelSent := true;
    }

    /** Move a file that is about to be replaced by different content out of the way. */
    method BackupOnConflict(path: Path, incoming: Bytes, ts: U64) returns (conflicted: bool)
      modifies this`files, this`backups
      ensures conflicted <==> path in old(files) && old(files)[path] != incoming
      ensures !conflicted ==> files == old(files)
      ensures conflicted ==>
        files == (old(files) - {path})[BackupPath(path, ts, loser, ShortHash(hash(incoming))) := old(files)[path]]
      ensures files == CommitStage(old(files), path, incoming, BackupName(hash, loser, path, incoming, ts), 1)
      ensures backups == if conflicted then old(backups)[path := ts] else old(backups)
    {
      if path !in files {
        return false;
      }
      var existing := files[path];
      if existing == incoming {
        return false;
      }
      var shortHash := ShortHash(hash(incoming));
      var bak := BackupPath(path, ts, loser, shortHash);
      files := (files - {path})[bak := existing];
      backups := backups[path := ts];
      return true;
    }

    /** Write to a temporary name, then rename over the target. */
    method WriteAtomically(path: Path, data: Bytes)
      modifies this`files
      ensures files == (old(files)[TempPath(path) := data] - {TempPath(path)})[path := data]
    {
      var temp := TempPath(path);
      files := files[temp := data];
      files := (files - {temp})[path := files[temp]];
    }

    /** Back up what is there, then put the new file in its place and record it. */
    method CommitFile(path: Path, data: Bytes, ts: U64)
      modifies this`files, this`backups, this`conflicts, this`receivedPaths, this`pulledBytes
      ensures State([]) == Commit(hash, old(State([])), path, data, ts)
    {
      var conflicted := BackupOnConflict(path, data, ts);
      WriteAtomically(path, data);
      RecordPull(path, |data|, conflicted);
      ghost var spec := Commit(hash, old(State([])), path, data, ts);
      assert files == spec.files && backups == spec.log.backups;
      assert receivedPaths == spec.rx.received && pulledBytes == spec.log.pulledBytes &&
        conflicts == spec.log.conflicts;
    }

    /** Count a file that has been put in place. */
    method RecordPull(path: Path, size: nat, conflicted: bool)
      modifies this`conflicts, this`receivedPaths, this`pulledBytes
      ensures conflicts == if conflicted then old(conflicts) + [path] else old(conflicts)
      ensures receivedPaths == old(receivedPaths) + [path] && pulledBytes == old(pulledBytes) + size
    {
      if conflicted {
        conflicts := conflicts + [path];
      }
      receivedPaths := receivedPaths + [path];
      pulledBytes := pulledBytes + size;
    }

    /** Verify a complete file against the announced digest; commit it or refuse it. */
    method FinishFile(path: Path, data: Bytes, ts: U64) returns (reply: seq<Message>)
      modifies this`files, this`backups, this`conflicts, this`receivedPaths, this`pulledBytes
      ensures (State([]), reply) ==
        if path in expected && hash(data) != expected[path] then (old(State([])), [Ack(path, false)])
        else (Commit(hash, old(State([])), path, data, ts), [Ack(path, true)])
    {
      if path in expected && hash(data) != expected[path] {
        return [Ack(path, false)];
      }
      CommitFile(path, data, ts);
      return [Ack(path, true)];
    }

    /** Validate a chunk and copy it into its file's buffer; take the buffer out when it is complete. */
    method StoreChunk(c: FileChunk) returns (outcome: Outcome)
      modifies this`incomingFiles, this`bufferedBytes
      ensures outcome == Accept(old(Buffers(incomingFiles, bufferedBytes)), c)
      ensures Buffers(incomingFiles, bufferedBytes) ==
        if outcome.Stored? || outcome.Complete? then outcome.buffers else old(Buffers(incomingFiles, bufferedBytes))
    {
      var check := ValidateChunk(c, |incomingFiles|, bufferedBytes);
      if check.Some? {
        return Rejected(check.value);
      }
      var entry := WriteAt(if c.path in incomingFiles then incomingFiles[c.path] else [], c.offset, c.data);
      if c.offset + |c.data| < c.totalSize {
        incomingFiles := incomingFiles[c.path := entry];
        bufferedBytes := bufferedBytes + |c.data|;
        return Stored(Buffers(incomingFiles, bufferedBytes));
      }
      if bufferedBytes + |c.data| < |entry| {
        return Underflow;
      }
      bufferedBytes := bufferedBytes + |c.data| - |entry|;
      incomingFiles := incomingFiles - {c.path};
      return Complete(Buffers(incomingFiles, bufferedBytes), entry);
    }

    /** Store a chunk; when it is the last of its file, finish the file. */
    method OnChunk(c: FileChunk, ts: U64) returns (reply: seq<Message>)
      requires !failed && c.path != DATABASE
      modifies this
      ensures (State([]), reply) == Receive(hash, old(State([])), Chunk(c), ts)
    {
      reply := [];
      var outcome := StoreChunk(c);
      match outcome {
        case Rejected(_) => failed := true;
        case Underflow => failed := true;
        case Stored(_) =>
        case Complete(_, data) => reply := FinishFile(c.path, data, ts);
      }
    }

    /** Handle one message. What is acknowledged is what was taken. */
    method HandleMessage(m: Message, ts: U64) returns (reply: seq<Message>)
      requires !failed
      modifies this
      ensures receivedPaths == old(receivedPaths) + Acknowledged(reply)
      ensures (State([]), reply) == Receive(hash, old(State([])), m, ts)
    {
      reply := [];
      ReceiveAcknowledges(hash, State([]), m, ts);
      match m {
        case Chunk(c) =>
          if c.path != DATABASE {
            reply := OnChunk(c, ts);
          }
        case Ack(path, _) =>
          if path == "" {
            gotEof := true;
          } else if role == Client && path in pushed {
            ackedPushes := ackedPushes + {path};
          }
      }
    }

    /** The client's loop: the exit condition is tested before every read. */
    method ClientLoop(inbox: seq<Message>, clock: seq<U64>) returns (replies: seq<Message>)
      requires role == Client && !failed && |clock| == |inbox|
      modifies this
      ensures receivedPaths == old(receivedPaths) + Acknowledged(replies)
      ensures (State([]), replies) == Drain(hash, old(State([])), inbox, clock, [])
    {
      replies := [];
      ghost var start := State([]);
      DrainAcknowledges(hash, start, inbox, clock, [], receivedPaths);
      assert inbox[0..] == inbox && clock[0..] == clock;
      var i := 0;
      while true
        invariant 0 <= i <= |inbox|
        invariant Drain(hash, start, inbox, clock, []) == Drain(hash, State([]), inbox[i..], clock[i..], replies)
        decreases |inbox| - i
      {
        if failed || (|ackedPushes| >= |pushed| && |receivedPaths| >= pulls && incomingFiles == map[]) {
          break;
        }
        if i == |inbox| {
          break;  // nothing more arrives: read error or timeout
        }
        assert inbox[i..][0] == inbox[i] && inbox[i..][1..] == inbox[i + 1..];
        assert clock[i..][0] == clock[i] && clock[i..][1..] == clock[i + 1..];
        var reply := HandleMessage(inbox[i], clock[i]);
        replies := replies + reply;
        i := i + 1;
      }
    }

    /** The server's loop: the exit condition is tested after a message, unless the message was refused. */
    method ServerLoop(inbox: seq<Message>, clock: seq<U64>) returns (replies: seq<Message>)
      requires role == Server && !failed && |clock| == |inbox|
      modifies this
      ensures receivedPaths == old(receivedPaths) + Acknowledged(replies)
      ensures (State([]), replies) == ServerDrain(hash, old(State([])), inbox, clock, [])
    {
      replies := [];
      ghost var start := State([]);
      ServerDrainAcknowledges(hash, start, inbox, clock, [], receivedPaths);
      assert inbox[0..] == inbox && clock[0..] == clock;
      var i := 0;
      while i < |inbox| && !failed
        invariant 0 <= i <= |inbox|
        invariant ServerDrain(hash, start, inbox, clock, []) ==
          ServerDrain(hash, State([]), inbox[i..], clock[i..], replies)
      {
        assert inbox[i..][0] == inbox[i] && inbox[i..][1..] == inbox[i + 1..];
        assert clock[i..][0] == clock[i] && clock[i..][1..] == clock[i + 1..];
        var reply := HandleMessage(inbox[i], clock[i]);
        replies := replies + reply;
        i := i + 1;
        if Refused(reply) {
          continue;
        }
        if gotEof && incomingFiles == map[] {
          return;
        }
      }
    }
  }
}
