/**
 Cutting a file into chunks, validating chunks on arrival and putting the file together again.
 */
module Chunks {
  import opened Basics

  const CHUNK_SIZE: nat := 65_536  // 64 KiB
  const MAX_CHUNK_FRAME: nat := 131_072  // 128 KiB
  const MAX_FILE_SIZE: nat := 10_737_418_240  // 10 GiB
  const MAX_PATH_LEN: nat := 1024
  const MAX_IN_FLIGHT: nat := 64
  const MAX_BUFFERED: nat := 268_435_456  // 256 MiB

  datatype FileChunk = FileChunk(path: Path, offset: nat, data: Bytes, totalSize: nat)

  // ----- sending

  function ChunkEnd(data: Bytes, offset: nat): nat {
    if offset + CHUNK_SIZE <= |data| then offset + CHUNK_SIZE else |data|
  }

  /** The piece of a file that starts at `offset`. */
  function ChunkAt(path: Path, data: Bytes, offset: nat): FileChunk
    requires offset <= |data|
  {
    FileChunk(path, offset, data[offset..ChunkEnd(data, offset)], |data|)
  }

  /** What remains to be sent of a file; an empty file is one empty chunk. */
  function ChunksFrom(path: Path, data: Bytes, offset: nat): seq<FileChunk>
    requires offset <= |data|
    decreases |data| - offset
  {
    var end := ChunkEnd(data, offset);
    [ChunkAt(path, data, offset)] + if end >= |data| then [] else ChunksFrom(path, data, end)
  }

  /** The sending loop: full chunks in order, then the remainder, at least one chunk in all. */
  method SendFileChunks(path: Path, data: Bytes) returns (sent: seq<FileChunk>)
    ensures sent == ChunksFrom(path, data, 0)
  {
    sent := [];
    var offset := 0;
    while true
      invariant offset == 0 || offset < |data|
      invariant ChunksFrom(path, data, 0) == sent + ChunksFrom(path, data, offset)
      decreases |data| - offset
    {
      var end := ChunkEnd(data, offset);
      sent := sent + [FileChunk(path, offset, data[offset..end], |data|)];
      offset := end;
      if offset >= |data| {
        break;
      }
    }
  }

  /** How many chunks a file is sent in: one for every 64 KiB begun, at least one. */
  function ChunkCount(size: nat): nat {
    if size == 0 then 1 else (size + 65_535) / 65_536
  }

  /** The chunks of a file, one by one: consecutive pieces of 64 KiB, the last one what remains. */
  lemma {:induction false} ChunksFromAt(path: Path, data: Bytes, k: nat, i: nat)
    requires 65_536 * k <= |data| && (k == 0 || 65_536 * k < |data|)
    ensures |ChunksFrom(path, data, 65_536 * k)| == ChunkCount(|data|) - k
    ensures k <= i < ChunkCount(|data|) ==>
      var start, end := 65_536 * i, if 65_536 * (i + 1) <= |data| then 65_536 * (i + 1) else |data|;
      start <= end && ChunksFrom(path, data, 65_536 * k)[i - k] == FileChunk(path, start, data[start..end], |data|)
    decreases |data| - k
  {
    var end := ChunkEnd(data, 65_536 * k);
    if end < |data| {
      ChunksFromAt(path, data, k + 1, i);
    } else {
      assert ChunkCount(|data|) == k + 1;
    }
  }

  // ----- receiving

  datatype ChunkError =
    | PathTooLong
    | FileTooLarge
    | ChunkTooLarge
    | OffsetOverflow
    | PastEnd
    | TooManyFiles
    | BufferFull

  function ValidateChunk(c: FileChunk, inFlight: nat, buffered: nat): Option<ChunkError> {
    if |c.path| > MAX_PATH_LEN then Some(PathTooLong)
    else if c.totalSize > MAX_FILE_SIZE then Some(FileTooLarge)
    else if |c.data| > MAX_CHUNK_FRAME then Some(ChunkTooLarge)
    else if c.offset + |c.data| >= 0x1_0000_0000_0000_0000 then Some(OffsetOverflow)
    else if c.offset + |c.data| > c.totalSize then Some(PastEnd)
    else if inFlight >= MAX_IN_FLIGHT then Some(TooManyFiles)
    else if buffered + |c.data| > MAX_BUFFERED then Some(BufferFull)
    else None
  }

  /** A chunk passes exactly within all seven limits, which also hold for chunks no sender here produces. */
  lemma {:induction false} PassesIff(c: FileChunk, inFlight: nat, buffered: nat)
    ensures ValidateChunk(c, inFlight, buffered).None? <==>
      && |c.path| <= 1024 && c.totalSize <= 10 * 1024 * 1024 * 1024 && |c.data| <= 128 * 1024
      && c.offset + |c.data| <= c.totalSize && inFlight < 64 && buffered + |c.data| <= 256 * 1024 * 1024
  {
  }

  /** Files that have arrived in part, and the counter that is meant to track their total length. */
  datatype Buffers = Buffers(incoming: map<Path, Bytes>, buffered: nat)

  const EMPTY := Buffers(map[], 0)

  datatype Outcome =
    | Rejected(error: ChunkError)
    | Underflow  // the counter would drop below zero
    | Stored(buffers: Buffers)
    | Complete(buffers: Buffers, data: Bytes)

  function Held(b: Buffers, p: Path): Bytes {
    if p in b.incoming then b.incoming[p] else []
  }

  /** Grow the buffer with zeros if the piece reaches past its end, then copy the piece in. */
  function Splice(entry: Bytes, offset: nat, piece: Bytes): (r: Bytes)
    ensures |r| == if offset + |piece| > |entry| then offset + |piece| else |entry|
  {
    var end := offset + |piece|;
    seq(if end > |entry| then end else |entry|, i requires i >= 0 =>
      if offset <= i < end then piece[i - offset] else if i < |entry| then entry[i] else 0)
  }

  function Accept(b: Buffers, c: FileChunk): Outcome {
    match ValidateChunk(c, |b.incoming|, b.buffered)
    case Some(e) => Rejected(e)
    case None =>
      var entry := Splice(Held(b, c.path), c.offset, c.data);
      var total := b.buffered + |c.data|;
      if c.offset + |c.data| < c.totalSize then
        Stored(Buffers(b.incoming[c.path := entry], total))
      else if total < |entry| then Underflow
      else Complete(Buffers(b.incoming - {c.path}, total - |entry|), entry)
  }

  /** A buffer into which a piece was written: the piece at its place, the old bytes and zeros elsewhere. */
  ghost predicate Written(before: Bytes, offset: nat, piece: Bytes, after: Bytes) {
    && |after| == (if offset + |piece| > |before| then offset + |piece| else |before|)
    && after[offset..offset + |piece|] == piece
    && forall i :: 0 <= i < |after| && !(offset <= i < offset + |piece|) ==>
         after[i] == if i < |before| then before[i] else 0
  }

  /** What an accepted chunk does, in order or not; no other file is touched. */
  lemma {:induction false} AcceptWrites(b: Buffers, c: FileChunk)
    ensures Accept(b, c).Rejected? <==> ValidateChunk(c, |b.incoming|, b.buffered).Some?
    ensures Accept(b, c).Stored? ==>
      var b' := Accept(b, c).buffers;
      && c.offset + |c.data| < c.totalSize && b'.buffered == b.buffered + |c.data|
      && c.path in b'.incoming && Written(Held(b, c.path), c.offset, c.data, b'.incoming[c.path])
      && b'.incoming - {c.path} == b.incoming - {c.path}
    ensures Accept(b, c).Complete? ==>
      var b' := Accept(b, c).buffers;
      && c.offset + |c.data| == c.totalSize && b'.buffered == b.buffered + |c.data| - |Accept(b, c).data|
      && Written(Held(b, c.path), c.offset, c.data, Accept(b, c).data) && b'.incoming == b.incoming - {c.path}
    ensures Accept(b, c).Underflow? ==>
      c.offset + |c.data| == c.totalSize && (b.buffered < c.offset || b.buffered + |c.data| < |Held(b, c.path)|)
  {
    SpliceWrites(Held(b, c.path), c.offset, c.data);
  }

  lemma {:induction false} SpliceWrites(entry: Bytes, offset: nat, piece: Bytes)
    ensures Written(entry, offset, piece, Splice(entry, offset, piece))
  {
  }

  /** A piece that continues what is held is simply appended. */
  lemma {:induction false} AcceptInOrder(b: Buffers, c: FileChunk)
    requires c.offset == |Held(b, c.path)|
    ensures Accept(b, c) ==
      match ValidateChunk(c, |b.incoming|, b.buffered)
      case Some(e) => Rejected(e)
      case None =>
        var entry, total := Held(b, c.path) + c.data, b.buffered + |c.data|;
        if |entry| < c.totalSize then Stored(Buffers(b.incoming[c.path := entry], total))
        else if total < |entry| then Underflow
        else Complete(Buffers(b.incoming - {c.path}, total - |entry|), entry)
  {
    assert Splice(Held(b, c.path), c.offset, c.data) == Held(b, c.path) + c.data;
  }

  // ----- one file, from empty buffers or beside other files

  /** Feed chunks until one is rejected or completes the file. */
  function Feed(b: Buffers, cs: seq<FileChunk>): Outcome
    decreases |cs|
  {
    if cs == [] then Stored(b)
    else
      match Accept(b, cs[0])
      case Stored(b') => Feed(b', cs[1..])
      case other => other
  }

  /** Whether a file can be received beside what is already buffered. */
  predicate Receivable(b: Buffers, path: Path, size: nat) {
    && |path| <= MAX_PATH_LEN
    && size <= MAX_FILE_SIZE
    && |b.incoming| + (if size > CHUNK_SIZE then 1 else 0) < MAX_IN_FLIGHT
    && b.buffered + size <= MAX_BUFFERED
  }

  lemma {:induction false} FeedRest(b: Buffers, others: Buffers, path: Path, data: Bytes, k: nat)
    requires path !in others.incoming && 0 < k < |data|
    requires b == Buffers(others.incoming[path := data[..k]], others.buffered + k)
    requires |path| <= MAX_PATH_LEN && |data| <= MAX_FILE_SIZE && |data| > CHUNK_SIZE
    requires |others.incoming| + 1 < MAX_IN_FLIGHT
    ensures others.buffered + |data| <= MAX_BUFFERED ==>
              Feed(b, ChunksFrom(path, data, k)) == Complete(others, data)
    ensures others.buffered + |data| > MAX_BUFFERED ==>
              Feed(b, ChunksFrom(path, data, k)) == Rejected(BufferFull)
    decreases |data| - k
  {
    var c, end := ChunkAt(path, data, k), ChunkEnd(data, k);
    assert ChunksFrom(path, data, k)[1..] == if end >= |data| then [] else ChunksFrom(path, data, end);
    AcceptInOrder(b, c);
    assert data[..k] + c.data == data[..end];
    if b.buffered + |c.data| <= MAX_BUFFERED {
      if end < |data| {
        var b' := Buffers(others.incoming[path := data[..end]], others.buffered + end);
        assert b.incoming[path := data[..end]] == b'.incoming;
        FeedRest(b', others, path, data, end);
      } else {
        assert b.incoming - {path} == others.incoming;
        assert data[..end] == data;
      }
    }
  }

  /** The first chunk of a file: rejected, or the whole file, or the start of a longer one. */
  lemma {:induction false} FeedFirst(b: Buffers, path: Path, data: Bytes)
    requires path !in b.incoming
    ensures var c, end := ChunkAt(path, data, 0), ChunkEnd(data, 0);
      Feed(b, ChunksFrom(path, data, 0)) ==
        match ValidateChunk(c, |b.incoming|, b.buffered)
        case Some(e) => Rejected(e)
        case None =>
          if end < |data|
          then Feed(Buffers(b.incoming[path := data[..end]], b.buffered + end), ChunksFrom(path, data, end))
          else Complete(b, data)
  {
    var c, end := ChunkAt(path, data, 0), ChunkEnd(data, 0);
    var cs := ChunksFrom(path, data, 0);
    assert cs[0] == c && cs[1..] == if end >= |data| then [] else ChunksFrom(path, data, end);
    AcceptFirst(b, path, data);
  }

  /** The first chunk of a file by itself. */
  lemma {:induction false} AcceptFirst(b: Buffers, path: Path, data: Bytes)
    requires path !in b.incoming
    ensures var c, end := ChunkAt(path, data, 0), ChunkEnd(data, 0);
      Accept(b, c) ==
        match ValidateChunk(c, |b.incoming|, b.buffered)
        case Some(e) => Rejected(e)
        case None =>
          if end < |data| then Stored(Buffers(b.incoming[path := data[..end]], b.buffered + end))
          else Complete(b, data)
  {
    var c, end := ChunkAt(path, data, 0), ChunkEnd(data, 0);
    AcceptInOrder(b, c);
    assert [] + c.data == data[..end];
    assert b.incoming - {path} == b.incoming;
  }

  lemma {:induction false} FeedNoRoom(b: Buffers, path: Path, data: Bytes, k: nat)
    requires 0 < k < |data| && |path| <= MAX_PATH_LEN && |data| <= MAX_FILE_SIZE && |b.incoming| >= MAX_IN_FLIGHT
    ensures Feed(b, ChunksFrom(path, data, k)) == Rejected(TooManyFiles)
  {
    assert ChunksFrom(path, data, k)[0] == ChunkAt(path, data, k);
  }

  /**
   A file sent in chunks arrives intact exactly when it can be received; otherwise it is rejected
   before it completes, and the reason says why.
   */
  lemma {:induction false} RoundTripBeside(b: Buffers, path: Path, data: Bytes)
    requires path !in b.incoming
    ensures Feed(b, ChunksFrom(path, data, 0)) == Complete(b, data) <==> Receivable(b, path, |data|)
    ensures !Receivable(b, path, |data|) ==> Feed(b, ChunksFrom(path, data, 0)).Rejected?
  {
    FeedFirst(b, path, data);
    var end := ChunkEnd(data, 0);
    if |path| <= MAX_PATH_LEN && |data| <= MAX_FILE_SIZE && |b.incoming| < MAX_IN_FLIGHT && end < |data| {
      FeedLonger(b, path, data);
    }
  }

  lemma {:induction false} FeedLonger(b: Buffers, path: Path, data: Bytes)
    requires path !in b.incoming && |data| > CHUNK_SIZE
    requires |path| <= MAX_PATH_LEN && |data| <= MAX_FILE_SIZE && |b.incoming| < MAX_IN_FLIGHT
    ensures var b' := Buffers(b.incoming[path := data[..CHUNK_SIZE]], b.buffered + CHUNK_SIZE);
      Feed(b', ChunksFrom(path, data, CHUNK_SIZE)) ==
        if |b.incoming| + 1 >= MAX_IN_FLIGHT then Rejected(TooManyFiles)
        else if b.buffered + |data| > MAX_BUFFERED then Rejected(BufferFull)
        else Complete(b, data)
  {
    var b' := Buffers(b.incoming[path := data[..CHUNK_SIZE]], b.buffered + CHUNK_SIZE);
    if |b.incoming| + 1 < MAX_IN_FLIGHT {
      FeedRest(b', b, path, data, CHUNK_SIZE);
    } else {
      FeedNoRoom(b', path, data, CHUNK_SIZE);
    }
  }

  /**
   With nothing else in flight the bound is exactly 256 MiB: a longer file is cut off by the buffer
   check although files of up to 10 GiB pass the size check.
   */
  lemma {:induction false} RoundTrip(path: Path, data: Bytes)
    ensures Feed(EMPTY, ChunksFrom(path, data, 0)) ==
      if |path| > MAX_PATH_LEN then Rejected(PathTooLong)
      else if |data| > MAX_FILE_SIZE then Rejected(FileTooLarge)
      else if |data| > MAX_BUFFERED then Rejected(BufferFull)
      else Complete(EMPTY, data)
  {
    RoundTripBeside(EMPTY, path, data);
    FeedFirst(EMPTY, path, data);
    var end := ChunkEnd(data, 0);
    if |path| <= MAX_PATH_LEN && MAX_BUFFERED < |data| <= MAX_FILE_SIZE {
      FeedRest(Buffers(map[path := data[..end]], end), EMPTY, path, data, end);
    }
  }

  // ----- any interleaving of any number of files

  /** One cell per buffered byte. */
  ghost function Cells(m: map<Path, Bytes>): set<(Path, nat)> {
    set p, i: nat | p in m && i < |m[p]| :: (p, i)
  }

  ghost function Row(p: Path, n: nat): set<(Path, nat)> {
    set i: nat | i < n :: (p, i)
  }

  /** Total length of the buffered parts. */
  ghost function Lengths(m: map<Path, Bytes>): nat {
    |Cells(m)|
  }

  lemma {:induction false} RowSize(p: Path, n: nat)
    ensures |Row(p, n)| == n
  {
    if n == 0 {
      assert Row(p, 0) == {};
    } else {
      RowSize(p, n - 1);
      assert Row(p, n) == Row(p, n - 1) + {(p, n - 1)};
    }
  }

  lemma {:induction false} LengthsWithout(m: map<Path, Bytes>, p: Path)
    requires p in m
    ensures Lengths(m) == |m[p]| + Lengths(m - {p})
  {
    RowSize(p, |m[p]|);
    assert Cells(m) == Row(p, |m[p]|) + Cells(m - {p});
    assert Row(p, |m[p]|) !! Cells(m - {p});
  }

  /** Replacing one buffered part changes the total by the difference of the lengths. */
  lemma {:induction false} LengthsUpdate(b: Buffers, p: Path, entry: Bytes)
    ensures Lengths(b.incoming[p := entry]) == Lengths(b.incoming - {p}) + |entry|
    ensures Lengths(b.incoming) == Lengths(b.incoming - {p}) + |Held(b, p)|
  {
    var m := b.incoming;
    LengthsWithout(m[p := entry], p);
    assert m[p := entry] - {p} == m - {p};
    if p in m {
      LengthsWithout(m, p);
    } else {
      assert m - {p} == m;
    }
  }

  /** The counter tells the truth and the limits hold. */
  ghost predicate Counted(b: Buffers) {
    b.buffered == Lengths(b.incoming) && b.buffered <= MAX_BUFFERED && |b.incoming| <= MAX_IN_FLIGHT
  }

  /** In-order chunks keep the counter truthful and can never drive it below zero. */
  lemma {:induction false} AcceptKeepsCount(b: Buffers, c: FileChunk)
    requires Counted(b) && c.offset == |Held(b, c.path)|
    ensures match Accept(b, c)
            case Rejected(_) => true
            case Underflow => false
            case Stored(b') => Counted(b')
            case Complete(b', _) => Counted(b')
  {
    AcceptInOrder(b, c);
    LengthsUpdate(b, c.path, Held(b, c.path) + c.data);
    InFlightUpdate(b.incoming, c.path, Held(b, c.path) + c.data);
  }

  lemma {:induction false} InFlightUpdate(m: map<Path, Bytes>, p: Path, entry: Bytes)
    ensures |m[p := entry]| <= |m| + 1 && |m - {p}| <= |m|
  {
    assert m[p := entry].Keys == m.Keys + {p};
    assert (m - {p}).Keys == m.Keys - {p};
  }

  /** Several files under way: how far each sender got, what is buffered, what has been completed. */
  datatype Weave = Weave(progress: map<Path, nat>, buffers: Buffers, done: map<Path, Bytes>)

  function Progress(w: Weave, p: Path): nat {
    if p in w.progress then w.progress[p] else 0
  }

  /** The sender of `p` can deliver its next chunk. */
  predicate CanDeliver(files: map<Path, Bytes>, w: Weave, p: Path) {
    p in files && p !in w.done && Progress(w, p) <= |files[p]|
  }

  /** The next chunk of `p` arrives; a rejected chunk ends the session and is not a step. */
  ghost predicate Deliver(files: map<Path, Bytes>, w: Weave, w': Weave, p: Path) {
    CanDeliver(files, w, p) &&
    var c := ChunkAt(p, files[p], Progress(w, p));
    var progress := w.progress[p := c.offset + |c.data|];
    match Accept(w.buffers, c)
    case Rejected(_) => false
    case Underflow => false
    case Stored(b) => w' == Weave(progress, b, w.done)
    case Complete(b, data) => w' == Weave(progress, b, w.done[p := data])
  }

  /** A run of deliveries: at step `i` the next chunk of `picks[i]` arrives. */
  ghost predicate WeaveRun(files: map<Path, Bytes>, ws: seq<Weave>, picks: seq<Path>) {
    && |ws| == |picks| + 1
    && ws[0] == Weave(map[], EMPTY, map[])
    && forall i :: 0 <= i < |picks| ==> Deliver(files, ws[i], ws[i + 1], picks[i])
  }

  /** Buffered parts are prefixes of the files being sent; completed files are those files. */
  ghost predicate Intact(files: map<Path, Bytes>, w: Weave) {
    && (forall p :: p in files && p !in w.done ==>
          Progress(w, p) <= |files[p]| && Held(w.buffers, p) == files[p][..Progress(w, p)])
    && (forall p :: p in w.done ==> p in files && w.done[p] == files[p])
  }

  lemma {:induction false} DeliverKeepsIntact(files: map<Path, Bytes>, w: Weave, w': Weave, p: Path)
    requires Intact(files, w) && Deliver(files, w, w', p)
    ensures Intact(files, w')
  {
    var c := ChunkAt(p, files[p], Progress(w, p));
    AcceptInOrder(w.buffers, c);
    assert Held(w.buffers, p) + c.data == files[p][..c.offset + |c.data|];
    assert forall q :: q != p ==> Held(w'.buffers, q) == Held(w.buffers, q) && Progress(w', q) == Progress(w, q);
  }

  /**
   However the chunks of however many files are interleaved, the counter equals the total length of
   the buffered parts, at most 256 MiB and 64 files are held, every buffered part is a prefix of its
   file and every completed file is exactly the one that was sent.
   */
  lemma {:induction false} InterleavedAccounting(files: map<Path, Bytes>, ws: seq<Weave>, picks: seq<Path>, i: nat)
    requires WeaveRun(files, ws, picks) && i < |ws|
    ensures Intact(files, ws[i]) && Counted(ws[i].buffers)
  {
    if i == 0 {
      assert Cells(map[]) == {};
    } else {
      InterleavedAccounting(files, ws, picks, i - 1);
      assert Deliver(files, ws[i - 1], ws[i - 1 + 1], picks[i - 1]);
      DeliverKeepsIntact(files, ws[i - 1], ws[i], picks[i - 1]);
      var p := picks[i - 1];
      AcceptKeepsCount(ws[i - 1].buffers, ChunkAt(p, files[p], Progress(ws[i - 1], p)));
    }
  }

  /** In such a run no chunk, accepted or not, can drive the counter below zero. */
  lemma {:induction false} InterleavedNoUnderflow(files: map<Path, Bytes>, ws: seq<Weave>, picks: seq<Path>, i: nat,
                                                  p: Path)
    requires WeaveRun(files, ws, picks) && i < |ws| && CanDeliver(files, ws[i], p)
    ensures Accept(ws[i].buffers, ChunkAt(p, files[p], Progress(ws[i], p))) != Underflow
  {
    InterleavedAccounting(files, ws, picks, i);
    AcceptKeepsCount(ws[i].buffers, ChunkAt(p, files[p], Progress(ws[i], p)));
  }
}
