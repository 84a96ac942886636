/**
 Stamping a scanned folder with versions, putting it on the wire as an index, and reading an index
 back as a snapshot.
 */
module Orchestrator {
  import opened Basics
  import opened Versions
  import opened Reconciler

  datatype IndexEntry = IndexEntry(
    path: Path,
    localVersion: U64,
    remoteVersion: U64,
    mtime: I64,
    size: nat,
    hash: Bytes)

  datatype Index = Index(folderId: string, deviceId: DeviceId, remotePath: Option<Path>, entries: seq<IndexEntry>)

  /** Rust's `as u64` on a signed 64-bit number: two's complement. */
  function AsU64(n: I64): U64 {
    if n < 0 then n + 0x1_0000_0000_0000_0000 else n
  }

  /** The first 32 bytes, padded with zeros. */
  function FitDigest(h: Bytes): (d: Digest)
    ensures |h| == 32 ==> d == h
    ensures forall i :: 0 <= i < 32 ==> d[i] == if i < |h| then h[i] else 0
  {
    if |h| >= 32 then h[..32] else h + seq(32 - |h|, _ => 0)
  }

  /** A counter of zero on the wire stands for "no version at all". */
  function WireVersion(device: DeviceId, counter: U64): FileVersion {
    if counter > 0 then map[device := counter] else map[]
  }

  function FromWire(e: IndexEntry, device: DeviceId): SnapshotEntry {
    SnapshotEntry(e.path, e.size, FitDigest(e.hash), WireVersion(device, e.localVersion), e.mtime)
  }

  function IndexToSnapshot(index: Index): (s: Snapshot)
    ensures |s| == |index.entries|
    ensures forall i :: 0 <= i < |s| ==> s[i] == FromWire(index.entries[i], index.deviceId)
  {
    seq(|index.entries|, i requires 0 <= i < |index.entries| => FromWire(index.entries[i], index.deviceId))
  }

  /** `n` is the largest counter of `v`, or zero when there is none. */
  ghost predicate IsTopCounter(v: FileVersion, n: U64) {
    && (forall d :: d in v ==> v[d] <= n)
    && (n == 0 || exists d :: d in v && v[d] == n)
  }

  method TopCounter(v: FileVersion) returns (n: U64)
    ensures IsTopCounter(v, n)
  {
    n := 0;
    var todo := v.Keys;
    while todo != {}
      invariant todo <= v.Keys
      invariant forall d :: d in v.Keys - todo ==> v[d] <= n
      invariant n == 0 || exists d :: d in v && v[d] == n
    {
      var dev :| dev in todo;
      if v[dev] > n {
        n := v[dev];
      }
      todo := todo - {dev};
    }
  }

  /** The two entries describe one file. */
  ghost predicate SameFile(e: SnapshotEntry, w: IndexEntry) {
    w.path == e.path && w.mtime == e.mtime && w.size == e.size && w.hash == e.hash
  }

  /** What a snapshot entry becomes on the wire, given its largest counter. */
  function ToWire(e: SnapshotEntry, top: U64): IndexEntry {
    IndexEntry(e.path, top, 0, e.mtime, e.size, e.hash)
  }

  method SnapshotToIndex(snapshot: Snapshot, folderId: string, device: DeviceId) returns (index: Index)
    ensures index.folderId == folderId && index.deviceId == device && index.remotePath == None
    ensures |index.entries| == |snapshot|
    ensures forall i :: 0 <= i < |snapshot| ==>
      IsTopCounter(snapshot[i].version, index.entries[i].localVersion) &&
      index.entries[i].remoteVersion == 0 && SameFile(snapshot[i], index.entries[i]) &&
      index.entries[i] == ToWire(snapshot[i], index.entries[i].localVersion)
  {
    var entries: seq<IndexEntry> := [];
    for i := 0 to |snapshot|
      invariant |entries| == i
      invariant forall j :: 0 <= j < i ==>
        IsTopCounter(snapshot[j].version, entries[j].localVersion) &&
        entries[j] == ToWire(snapshot[j], entries[j].localVersion)
    {
      var top := TopCounter(snapshot[i].version);
      entries := entries + [ToWire(snapshot[i], top)];
    }
    index := Index(folderId, device, None, entries);
  }

  /** The entries a device announces for a scanned folder: the modification time is the version. */
  function StampedEntries(scan: Snapshot): (es: seq<IndexEntry>)
    ensures |es| == |scan|
  {
    seq(|scan|, i requires 0 <= i < |scan| => ToWire(scan[i], AsU64(scan[i].mtime)))
  }

  /** Stamp every scanned entry with this device's counter, then convert to wire entries. */
  method BuildProtocolIndex(scan: Snapshot, folderId: string, device: DeviceId) returns (entries: seq<IndexEntry>)
    ensures |entries| == |scan| && forall i :: 0 <= i < |scan| ==> SameFile(scan[i], entries[i])
    ensures forall i :: 0 <= i < |scan| ==>
      entries[i].localVersion == if scan[i].mtime >= 0 then scan[i].mtime else scan[i].mtime + 0x1_0000_0000_0000_0000
    ensures entries == StampedEntries(scan)
  {
    var snap := scan;
    for i := 0 to |snap|
      invariant |snap| == |scan|
      invariant forall j :: 0 <= j < i ==> snap[j] == scan[j].(version := map[device := AsU64(scan[j].mtime)])
      invariant forall j :: i <= j < |scan| ==> snap[j] == scan[j]
    {
      snap := snap[i := snap[i].(version := map[device := AsU64(snap[i].mtime)])];
    }
    var index := SnapshotToIndex(snap, folderId, device);
    entries := index.entries;
    forall i | 0 <= i < |scan| ensures entries[i] == StampedEntries(scan)[i] {
      var v := snap[i].version;
      assert device in v && v[device] == AsU64(scan[i].mtime);
    }
  }

  // ----- the stamp rule, end to end

  /** What the reconciler sees of a scanned folder after stamping and a trip over the wire. */
  function Seen(scan: Snapshot, device: DeviceId): Snapshot {
    IndexToSnapshot(Index("", device, None, StampedEntries(scan)))
  }

  /** A trip over the wire keeps every path, size, content digest and time. */
  lemma {:induction false} SeenByPath(scan: Snapshot, device: DeviceId)
    ensures ByPath(Seen(scan, device)).Keys == ByPath(scan).Keys
    ensures forall p :: p in ByPath(scan) ==>
      ByPath(Seen(scan, device))[p] ==
        ByPath(scan)[p].(version := WireVersion(device, AsU64(ByPath(scan)[p].mtime)))
  {
    if scan != [] {
      var n := |scan| - 1;
      SeenByPath(scan[..n], device);
      assert Seen(scan, device)[..n] == Seen(scan[..n], device);
    }
  }

  lemma {:induction false} WireVersionOrder(da: DeviceId, a: U64, db: DeviceId, b: U64)
    ensures Above(WireVersion(da, a), WireVersion(db, b)) <==> a > b && (da == db || b == 0)
  {
    var va, vb := WireVersion(da, a), WireVersion(db, b);
    assert Get(va, da) == a && Get(vb, db) == b;
    if a > b && (da == db || b == 0) {
      assert Get(va, da) > Get(vb, da);
      assert forall d :: Get(va, d) >= Get(vb, d);
    }
    if Above(va, vb) {
      assert Get(va, db) >= Get(vb, db);
      var d :| Get(va, d) > Get(vb, d);
    }
  }

  /** The later of two modification times; a time before the epoch is stamped as a huge number. */
  ghost predicate Later(m: I64, n: I64) {
    if (m < 0) == (n < 0) then m > n else m < 0
  }

  lemma {:induction false} LaterIsLarger(m: I64, n: I64)
    ensures AsU64(m) > AsU64(n) <==> Later(m, n)
    ensures AsU64(m) == AsU64(n) <==> m == n
    ensures AsU64(m) == 0 <==> m == 0
  {
  }

  /**
   Who wins a file that differs on the two sides. When both indexes carry the same device id the later
   modification time wins and equal times are a conflict. When the ids differ a time wins only against
   the epoch itself: two other times are always a conflict.
   */
  lemma {:induction false} StampRule(a: Snapshot, b: Snapshot, da: DeviceId, db: DeviceId, p: Path)
    requires p in ByPath(a) && p in ByPath(b) && ByPath(a)[p].hash != ByPath(b)[p].hash
    ensures var ma, mb := ByPath(a)[p].mtime, ByPath(b)[p].mtime;
      && (Wins(Seen(a, da), Seen(b, db), [], p) <==> Later(ma, mb) && (da == db || mb == 0))
      && (Wins(Seen(b, db), Seen(a, da), [], p) <==> Later(mb, ma) && (da == db || ma == 0))
      && (Clash(Seen(a, da), Seen(b, db), [], [], p) <==> ma == mb || (da != db && ma != 0 && mb != 0))
  {
    SeenByPath(a, da);
    SeenByPath(b, db);
    var sa, sb := AsU64(ByPath(a)[p].mtime), AsU64(ByPath(b)[p].mtime);
    DivergentByVersion(Seen(a, da), Seen(b, db), p);
    LaterIsLarger(ByPath(a)[p].mtime, ByPath(b)[p].mtime);
    LaterIsLarger(ByPath(b)[p].mtime, ByPath(a)[p].mtime);
    WireVersionOrder(da, sa, db, sb);
    WireVersionOrder(db, sb, da, sa);
  }

  /** A path that differs on both sides is decided by its two versions alone. */
  lemma {:induction false} DivergentByVersion(x: Snapshot, y: Snapshot, p: Path)
    requires p in ByPath(x) && p in ByPath(y) && ByPath(x)[p].hash != ByPath(y)[p].hash
    ensures Wins(x, y, [], p) <==> Above(ByPath(x)[p].version, ByPath(y)[p].version)
    ensures Wins(y, x, [], p) <==> Above(ByPath(y)[p].version, ByPath(x)[p].version)
    ensures Clash(x, y, [], [], p) <==> !Wins(x, y, [], p) && !Wins(y, x, [], p)
  {
  }

  // ----- from a plan to the entries that travel

  /** The first entry for a path. */
  function Find(es: seq<IndexEntry>, p: Path): (r: Option<IndexEntry>)
    ensures r.Some? ==> r.value in es && r.value.path == p
    ensures r.None? ==> forall e :: e in es ==> e.path != p
  {
    if es == [] then None
    else if es[0].path == p then Some(es[0])
    else Find(es[1..], p)
  }

  /** The index entries named by a list of operations; operations without an entry are dropped. */
  function Lookup(ops: seq<SyncOperation>, es: seq<IndexEntry>): seq<IndexEntry> {
    if ops == [] then []
    else
      var rest := Lookup(ops[1..], es);
      match Find(es, ops[0].path)
      case Some(e) => [e] + rest
      case None => rest
  }

  function EntryPaths(es: seq<IndexEntry>): (ps: seq<Path>)
    ensures |ps| == |es|
  {
    seq(|es|, i requires 0 <= i < |es| => es[i].path)
  }

  function OpPathSeq(ops: seq<SyncOperation>): seq<Path> {
    seq(|ops|, i requires 0 <= i < |ops| => ops[i].path)
  }

  lemma {:induction false} LookupPaths(ops: seq<SyncOperation>, es: seq<IndexEntry>)
    requires forall op :: op in ops ==> op.path in EntryPaths(es)
    ensures EntryPaths(Lookup(ops, es)) == OpPathSeq(ops)
    ensures forall e :: e in Lookup(ops, es) ==> e in es
  {
    if ops != [] {
      LookupPaths(ops[1..], es);
      var i :| 0 <= i < |es| && EntryPaths(es)[i] == ops[0].path;
      assert es[i] in es && Find(es, ops[0].path).Some?;
      assert OpPathSeq(ops) == [ops[0].path] + OpPathSeq(ops[1..]);
    }
  }
}
