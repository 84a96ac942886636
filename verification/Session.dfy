/**
 One sync session between two ends that share nothing but two message queues. Each end first pushes
 its half of the plan in chunks and a sentinel, then reads: it reassembles, verifies, backs up and
 commits what arrives and acknowledges it. Either end may give up at any moment, also in the middle
 of writing a file.
 */
module Session {
  import opened Basics
  import opened Runs
  import opened Chunks
  import opened BackupNames

  datatype Message = Chunk(chunk: FileChunk) | Ack(path: Path, success: bool)

  /** An acknowledgement without a path marks the end of a side's pushes. */
  const SENTINEL := Ack("", true)

  const DATABASE: Path := "metadata.db"

  datatype Role = Client | Server

  /** The sending half of a side. */
  datatype Outgoing = Outgoing(todo: seq<Path>, offset: nat, pushed: seq<Path>, pushedBytes: nat, sentinelSent: bool)

  /** The receiving half of a side. The client reads sentinels past; only the server acts on `gotSentinel`. */
  datatype Incoming = Incoming(buffers: Buffers, acked: set<Path>, received: seq<Path>, gotSentinel: bool)

  /** What committing files has done: bytes written, paths reported as conflicts, time stamps of backups. */
  datatype Log = Log(pulledBytes: nat, conflicts: seq<Path>, backups: map<Path, U64>)

  datatype Peer = Peer(
    role: Role,
    loser: string,                // the word in the names of this side's backups
    expected: map<Path, Digest>,  // digests announced in the other side's index
    pulls: nat,                   // number of files the plan expects to arrive
    files: Files,
    tx: Outgoing,
    rx: Incoming,
    log: Log,
    failed: bool)

  function NewPeer(role: Role, files: Files, loser: string, expected: map<Path, Digest>, push: seq<Path>,
                   pulls: nat): Peer {
    Peer(role, loser, expected, pulls, files, Outgoing(push, 0, [], 0, false), Incoming(EMPTY, {}, [], false),
         Log(0, [], map[]), false)
  }

  // ----- leaving the loop

  /** The condition under which a side stops reading: counters on the client, the sentinel on the server. */
  predicate ExitReady(x: Peer) {
    && x.rx.buffers.incoming == map[]
    && match x.role
       case Client => |x.rx.acked| >= |x.tx.pushed| && |x.rx.received| >= x.pulls
       case Server => x.rx.gotSentinel
  }

  /** The side has left its receive loop in the regular way. */
  predicate Done(x: Peer) {
    !x.failed && x.tx.sentinelSent && ExitReady(x)
  }

  // ----- sending

  predicate CanSend(x: Peer) {
    && !x.failed && !x.tx.sentinelSent
    && (x.tx.todo != [] && x.tx.todo[0] in x.files ==> x.tx.offset <= |x.files[x.tx.todo[0]]|)
  }

  /** Write one message: the next chunk of the current file, or the sentinel after the last file. */
  function Send(x: Peer): (Peer, seq<Message>)
    requires CanSend(x)
  {
    if x.tx.todo == [] then (x.(tx := x.tx.(sentinelSent := true)), [SENTINEL])
    else if x.tx.todo[0] !in x.files then (x.(tx := x.tx.(todo := x.tx.todo[1..])), [])  // unreadable: skipped
    else
      var p := x.tx.todo[0];
      var data := x.files[p];
      var c := ChunkAt(p, data, x.tx.offset);
      var end := ChunkEnd(data, x.tx.offset);
      if end < |data| then (x.(tx := x.tx.(offset := end)), [Chunk(c)])
      else (x.(tx := Outgoing(x.tx.todo[1..], 0, x.tx.pushed + [p], x.tx.pushedBytes + |data|, false)), [Chunk(c)])
  }

  // ----- committing a received file

  function HexDigit(n: nat): (c: char)
    requires n < 16
    ensures IsHex(c)
  {
    if n < 10 then ('0' as int + n) as char else ('a' as int + n - 10) as char
  }

  /** The first eight hexadecimal digits of a digest. */
  function ShortHash(d: Digest): (s: string)
    ensures |s| == 8 && forall i :: 0 <= i < |s| ==> IsHex(s[i])
  {
    seq(8, i requires 0 <= i < 8 => HexDigit(if i % 2 == 0 then d[i / 2] / 16 else d[i / 2] % 16))
  }

  function BackupName(hash: Bytes -> Digest, loser: string, p: Path, data: Bytes, ts: U64): Path {
    BackupPath(p, ts, loser, ShortHash(hash(data)))
  }

  /** A file is about to be replaced by different content. */
  predicate Conflicted(files: Files, p: Path, data: Bytes) {
    p in files && files[p] != data
  }

  /** The folder after 0, 1, 2 or 3 of the steps that commit a file: back up, write aside, rename. */
  function CommitStage(files: Files, p: Path, data: Bytes, backup: Path, stage: nat): Files {
    var backedUp := if Conflicted(files, p, data) then (files - {p})[backup := files[p]] else files;
    var written := backedUp[TempPath(p) := data];
    if stage == 0 then files
    else if stage == 1 then backedUp
    else if stage == 2 then written
    else (written - {TempPath(p)})[p := data]
  }

  /** Commit a completed file and record it. */
  function Commit(hash: Bytes -> Digest, x: Peer, p: Path, data: Bytes, ts: U64): Peer {
    var conflicted := Conflicted(x.files, p, data);
    x.(files := CommitStage(x.files, p, data, BackupName(hash, x.loser, p, data, ts), 3),
       rx := x.rx.(received := x.rx.received + [p]),
       log := Log(x.log.pulledBytes + |data|,
                  if conflicted then x.log.conflicts + [p] else x.log.conflicts,
                  if conflicted then x.log.backups[p := ts] else x.log.backups))
  }

  // ----- receiving

  predicate CanReceive(x: Peer) {
    !x.failed && x.tx.sentinelSent && !ExitReady(x)
  }

  /** The file, if any, that a message completes and that passes the integrity check. */
  function Completes(hash: Bytes -> Digest, x: Peer, m: Message): Option<Bytes> {
    if m.Chunk? && m.chunk.path != DATABASE then
      match Accept(x.rx.buffers, m.chunk)
      case Complete(_, data) =>
        if m.chunk.path in x.expected && hash(data) != x.expected[m.chunk.path] then None else Some(data)
      case _ => None
    else None
  }

  /** Handle one message; the second component is what is written back. */
  function Receive(hash: Bytes -> Digest, x: Peer, m: Message, ts: U64): (Peer, seq<Message>) {
    match m
    case Chunk(c) =>
      if c.path == DATABASE then (x, [])
      else (
        match Accept(x.rx.buffers, c)
        case Rejected(_) => (x.(failed := true), [])
        case Underflow => (x.(failed := true), [])
        case Stored(b) => (x.(rx := x.rx.(buffers := b)), [])
        case Complete(b, data) =>
          var y := x.(rx := x.rx.(buffers := b));
          if c.path in x.expected && hash(data) != x.expected[c.path] then (y, [Ack(c.path, false)])
          else (Commit(hash, y, c.path, data, ts), [Ack(c.path, true)])
      )
    case Ack(p, _) =>
      if p == "" then (x.(rx := x.rx.(gotSentinel := true)), [])
      else if x.role.Client? && p in x.tx.pushed then (x.(rx := x.rx.(acked := x.rx.acked + {p})), [])
      else (x, [])
  }

  // ----- what a message can do

  /** The value of a hexadecimal digit. */
  function HexValue(c: char): nat
    requires IsHex(c)
  {
    if c <= '9' then c as int - '0' as int else c as int - 'a' as int + 10
  }

  /** The short hash spells the first four bytes of the digest. */
  lemma {:induction false} ShortHashSpells(d: Digest, i: nat)
    requires i < 4
    ensures var s := ShortHash(d); 16 * HexValue(s[2 * i]) + HexValue(s[2 * i + 1]) == d[i]
  {
  }

  /** A complete file with another digest than announced is refused: no file, list or counter changes. */
  lemma {:induction false} MismatchIsRefused(hash: Bytes -> Digest, x: Peer, c: FileChunk, ts: U64)
    requires c.path != DATABASE && Accept(x.rx.buffers, c).Complete?
    requires c.path in x.expected && hash(Accept(x.rx.buffers, c).data) != x.expected[c.path]
    ensures Receive(hash, x, Chunk(c), ts) ==
      (x.(rx := x.rx.(buffers := Accept(x.rx.buffers, c).buffers)), [Ack(c.path, false)])
  {
  }

  /** A message changes a folder, or the list of files received, only by completing a file that verifies. */
  lemma {:induction false} OnlyVerifiedFilesCount(hash: Bytes -> Digest, x: Peer, m: Message, ts: U64)
    requires var x' := Receive(hash, x, m, ts).0; x'.files != x.files || x'.rx.received != x.rx.received
    ensures m.Chunk? && m.chunk.path != DATABASE && Accept(x.rx.buffers, m.chunk).Complete?
    ensures var p, data := m.chunk.path, Accept(x.rx.buffers, m.chunk).data;
      && (p in x.expected ==> x.expected[p] == hash(data))
      && Receive(hash, x, m, ts).0.rx.received == x.rx.received + [p]
      && p in Receive(hash, x, m, ts).0.files && Receive(hash, x, m, ts).0.files[p] == data
      && Receive(hash, x, m, ts).1 == [Ack(p, true)]
  {
  }

  /** The database is never accepted from the other side. */
  lemma {:induction false} DatabaseIsIgnored(hash: Bytes -> Digest, x: Peer, c: FileChunk, ts: U64)
    requires c.path == "metadata.db"
    ensures Receive(hash, x, Chunk(c), ts) == (x, [])
  {
  }

  /** On the client an answer to a push counts, whether it was taken or refused; nothing else does. */
  lemma {:induction false} AnyAnswerCounts(hash: Bytes -> Digest, x: Peer, p: Path, success: bool, ts: U64)
    ensures var (x', out) := Receive(hash, x, Ack(p, success), ts);
      && out == [] && x'.files == x.files && x'.rx.received == x.rx.received && x'.rx.buffers == x.rx.buffers
      && (x'.rx.gotSentinel <==> x.rx.gotSentinel || p == "")
      && (forall q :: q in x'.rx.acked <==>
            q in x.rx.acked || (q == p && p != "" && x.role.Client? && p in x.tx.pushed))
  {
  }

  // ----- the whole system

  datatype System = System(client: Peer, server: Peer, toServer: seq<Message>, toClient: seq<Message>)

  datatype Action =
    | Sends(role: Role)
    | Receives(role: Role, ts: U64)
    | Aborts(role: Role)                                 // read error, timeout, connection lost
    | AbortsInCommit(role: Role, ts: U64, stage: nat)    // a step of committing fails, or the acknowledgement

  function Side(s: System, r: Role): Peer {
    if r.Client? then s.client else s.server
  }

  /** The messages on their way to a side. */
  function Inbox(s: System, r: Role): seq<Message> {
    if r.Client? then s.toClient else s.toServer
  }

  function Other(r: Role): Role {
    if r.Client? then Server else Client
  }

  /** Replace one side, give it a new inbox, and append what it wrote to the other side's inbox. */
  function Update(s: System, r: Role, x: Peer, inbox: seq<Message>, written: seq<Message>): System {
    if r.Client? then System(x, s.server, s.toServer + written, inbox)
    else System(s.client, x, inbox, s.toClient + written)
  }

  /**
   What the clock and the folder owe the session: when a file is about to be replaced, the name of
   its backup is not the name of a file that either side started with.
   */
  predicate FreshBackup(hash: Bytes -> Digest, universe: set<Path>, x: Peer, m: Message, ts: U64) {
    match Completes(hash, x, m)
    case Some(data) =>
      Conflicted(x.files, m.chunk.path, data) ==> BackupName(hash, x.loser, m.chunk.path, data, ts) !in universe
    case None => true
  }

  predicate Enabled(hash: Bytes -> Digest, universe: set<Path>, s: System, a: Action) {
    var x, inbox := Side(s, a.role), Inbox(s, a.role);
    match a
    case Sends(_) => CanSend(x)
    case Receives(_, ts) => CanReceive(x) && inbox != [] && FreshBackup(hash, universe, x, inbox[0], ts)
    case Aborts(_) => !x.failed
    case AbortsInCommit(_, ts, stage) =>
      CanReceive(x) && inbox != [] && FreshBackup(hash, universe, x, inbox[0], ts) &&
      Completes(hash, x, inbox[0]).Some? && stage <= 3
  }

  function Apply(hash: Bytes -> Digest, universe: set<Path>, s: System, a: Action): System
    requires Enabled(hash, universe, s, a)
  {
    var x, inbox := Side(s, a.role), Inbox(s, a.role);
    match a
    case Sends(r) => var (x', out) := Send(x); Update(s, r, x', inbox, out)
    case Receives(r, ts) => var (x', out) := Receive(hash, x, inbox[0], ts); Update(s, r, x', inbox[1..], out)
    case Aborts(r) => Update(s, r, x.(failed := true), inbox, [])
    case AbortsInCommit(r, ts, stage) =>
      var p, data := inbox[0].chunk.path, Completes(hash, x, inbox[0]).value;
      var files := CommitStage(x.files, p, data, BackupName(hash, x.loser, p, data, ts), stage);
      Update(s, r, x.(files := files, failed := true), inbox, [])
  }

  /** One step of the system. */
  ghost function Next(hash: Bytes -> Digest, universe: set<Path>): (System, Action, System) -> bool {
    (s, a, s') => Enabled(hash, universe, s, a) && s' == Apply(hash, universe, s, a)
  }

  ghost predicate Run(hash: Bytes -> Digest, universe: set<Path>, states: seq<System>, actions: seq<Action>) {
    IsRun(Next(hash, universe), states, actions)
  }

  /** Neither side gives up of its own accord. */
  ghost predicate NoAborts(actions: seq<Action>) {
    forall i :: 0 <= i < |actions| ==> actions[i].Sends? || actions[i].Receives?
  }

  // ----- what the two ends have agreed on before the first file travels

  /** The files of both sides and the half of the plan each side executes. */
  datatype Deal = Deal(client: Files, server: Files, clientPush: seq<Path>, serverPush: seq<Path>)

  ghost function Universe(d: Deal): set<Path> {
    d.client.Keys + d.server.Keys
  }

  /** One side's half of a deal: what it owns and pushes. */
  ghost predicate Half(mine: Files, push: seq<Path>) {
    && Distinct(push)
    && (forall p :: p in push ==> p in mine)
  }

  /**
   A deal is sound when each side pushes its own files, no path travels twice or in both directions,
   and whatever does not travel is already the same on both sides. Folders hold no file with an
   empty name, no database file and no file with the name of a temporary file.
   */
  ghost predicate Sound(d: Deal) {
    && Half(d.client, d.clientPush) && Half(d.server, d.serverPush)
    && (forall p :: p in d.clientPush ==> p !in d.serverPush)
    && (forall p :: p in d.client && p !in d.clientPush && p !in d.serverPush ==>
          p in d.server && d.server[p] == d.client[p])
    && (forall p :: p in d.server && p !in d.clientPush && p !in d.serverPush ==> p in d.client)
    && OrdinaryNames(Universe(d))
  }

  ghost predicate OrdinaryNames(universe: set<Path>) {
    && "" !in universe && DATABASE !in universe
    && forall p :: p in universe ==> TempPath(p) !in universe
  }

  ghost predicate GoodLabel(loser: string) {
    loser == "local" || loser == "remote"
  }

  /** The digests a side expects are those of the other side's files. */
  ghost predicate Announces(hash: Bytes -> Digest, expected: map<Path, Digest>, files: Files) {
    forall p :: p in expected && p in files ==> expected[p] == hash(files[p])
  }

  /** The state in which both sides have exchanged indexes and planned, and nothing has been sent. */
  ghost predicate Start(hash: Bytes -> Digest, d: Deal, s: System) {
    exists clientLoser: string, serverLoser: string, fromServer: map<Path, Digest>, fromClient: map<Path, Digest> ::
      && GoodLabel(clientLoser) && GoodLabel(serverLoser)
      && Announces(hash, fromServer, d.server) && Announces(hash, fromClient, d.client)
      && s == System(NewPeer(Client, d.client, clientLoser, fromServer, d.clientPush, |d.serverPush|),
                     NewPeer(Server, d.server, serverLoser, fromClient, d.serverPush, |d.clientPush|),
                     [], [])
  }
}
