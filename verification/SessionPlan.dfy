/**
 From two folders to a deal: both ends index their folder, exchange the indexes, reconcile with the
 sides swapped, and each derives the files it pushes. No end ever sees the other's plan.
 */
module SessionPlan {
  import opened Basics
  import opened Versions
  import opened Reconciler
  import opened Orchestrator
  import opened Session

  /** The index lists every file of the folder once, with its digest and size, and any version stamps. */
  ghost predicate Describes(hash: Bytes -> Digest, es: seq<IndexEntry>, files: Files) {
    && Distinct(EntryPaths(es))
    && (forall e :: e in es ==> e.path in files && e.hash == hash(files[e.path]) && e.size == |files[e.path]|)
    && (forall p :: p in files ==> p in EntryPaths(es))
  }

  /** The digest tells the contents involved apart. */
  ghost predicate TellsApart(hash: Bytes -> Digest, a: Files, b: Files) {
    forall p :: p in a && p in b && hash(a[p]) == hash(b[p]) ==> a[p] == b[p]
  }

  /** Everything that is fixed when both ends have planned. */
  datatype Planned = Planned(
    client: Files, server: Files,
    clientIndex: Index, serverIndex: Index,
    clientPlan: SyncPlan, serverPlan: SyncPlan)

  /** Both ends have indexed their folder and reconciled the two indexes. */
  ghost predicate Reconciled(hash: Bytes -> Digest, k: Planned) {
    && Describes(hash, k.clientIndex.entries, k.client) && Describes(hash, k.serverIndex.entries, k.server)
    && IsPlan(k.clientPlan, IndexToSnapshot(k.clientIndex), IndexToSnapshot(k.serverIndex), [], [])
    && IsPlan(k.serverPlan, IndexToSnapshot(k.serverIndex), IndexToSnapshot(k.clientIndex), [], [])
  }

  /** And the folders themselves are such that digests and names can be relied on. */
  ghost predicate WellPlanned(hash: Bytes -> Digest, k: Planned) {
    && Reconciled(hash, k)
    && TellsApart(hash, k.client, k.server)
    && OrdinaryNames(k.client.Keys + k.server.Keys)
  }

  /** Entries the client pushes: its uploads. */
  function ToPush(k: Planned): seq<IndexEntry> {
    Lookup(k.clientPlan.uploads, k.clientIndex.entries)
  }

  /** Entries the client expects: its downloads, then the remote copy of every conflict. */
  function ToPull(k: Planned): seq<IndexEntry> {
    Lookup(k.clientPlan.downloads, k.serverIndex.entries) + Lookup(k.clientPlan.conflicts, k.serverIndex.entries)
  }

  /** Entries the server pushes: its uploads, then its copy of every conflict. */
  function ToPushToClient(k: Planned): seq<IndexEntry> {
    Lookup(k.serverPlan.uploads, k.serverIndex.entries) + Lookup(k.serverPlan.conflicts, k.serverIndex.entries)
  }

  ghost function DealOf(k: Planned): Deal {
    Deal(k.client, k.server, EntryPaths(ToPush(k)), EntryPaths(ToPushToClient(k)))
  }

  /** The version a side announces for a path. */
  ghost function Announced(index: Index, p: Path): FileVersion {
    VersionIn(IndexToSnapshot(index), p)
  }

  /** The client's copy travels: the server lacks the path, or the copies differ and the client's version dominates. */
  ghost predicate ClientWins(k: Planned, p: Path) {
    && p in k.client
    && (p in k.server ==> k.client[p] != k.server[p] && Above(Announced(k.clientIndex, p), Announced(k.serverIndex, p)))
  }

  /** The server's copy travels in every other case in which the sides do not already agree. */
  ghost predicate ServerWins(k: Planned, p: Path) {
    && p in k.server
    && (p in k.client ==>
      k.client[p] != k.server[p] && !Above(Announced(k.clientIndex, p), Announced(k.serverIndex, p)))
  }

  // ----- what the reconciler sees of an index

  lemma {:induction false} SnapshotOf(hash: Bytes -> Digest, index: Index, files: Files)
    requires Describes(hash, index.entries, files)
    ensures PathsOf(IndexToSnapshot(index)) == files.Keys
    ensures ByPath(IndexToSnapshot(index)).Keys == files.Keys
    ensures forall p :: p in files ==> ByPath(IndexToSnapshot(index))[p].hash == hash(files[p])
  {
    var s := IndexToSnapshot(index);
    forall e | e in s ensures e.path in files && e.hash == hash(files[e.path]) {
      var i :| 0 <= i < |s| && s[i] == e;
      assert index.entries[i] in index.entries;
    }
    forall p | p in files ensures p in PathsOf(s) {
      var i :| 0 <= i < |index.entries| && EntryPaths(index.entries)[i] == p;
      assert s[i] in s && s[i].path == p;
    }
  }

  /** Winning, agreeing and clashing, said about file contents instead of digests. */
  lemma {:induction false} Verdicts(hash: Bytes -> Digest, k: Planned, p: Path)
    requires WellPlanned(hash, k)
    ensures var c, s := IndexToSnapshot(k.clientIndex), IndexToSnapshot(k.serverIndex);
      && (Wins(c, s, [], p) <==> ClientWins(k, p))
      && (Wins(s, c, [], p) || Clash(c, s, [], [], p) <==> ServerWins(k, p))
      && (Clash(c, s, [], [], p) <==> Clash(s, c, [], [], p))
  {
    var c, s := IndexToSnapshot(k.clientIndex), IndexToSnapshot(k.serverIndex);
    SnapshotOf(hash, k.clientIndex, k.client);
    SnapshotOf(hash, k.serverIndex, k.server);
    assert Buried([]) == {};
    if p in k.client && p in k.server {
      DominatesIsStrictOrder(Announced(k.clientIndex, p), Announced(k.serverIndex, p), map[]);
    }
  }

  // ----- from operations to paths

  lemma {:induction false} ListedPaths(ops: seq<SyncOperation>, wanted: set<SyncOperation>, es: seq<IndexEntry>)
    requires Lists(ops, wanted) && forall op :: op in wanted ==> op.path in EntryPaths(es)
    ensures var ps := EntryPaths(Lookup(ops, es));
      && Distinct(ps)
      && (forall p :: p in ps <==> exists op :: op in wanted && op.path == p)
      && (forall e :: e in Lookup(ops, es) ==> e in es)
  {
    LookupPaths(ops, es);
    var ps := OpPathSeq(ops);
    assert forall i :: 0 <= i < |ops| ==> ps[i] == ops[i].path;
    forall p ensures p in ps <==> exists op :: op in wanted && op.path == p {
      if op :| op in wanted && op.path == p {
        var i :| 0 <= i < |ops| && ops[i] == op;
        assert ps[i] == p;
      }
      if p in ps {
        var i :| 0 <= i < |ps| && ps[i] == p;
        assert ops[i] in ops;
      }
    }
  }

  lemma {:induction false} DistinctConcat(a: seq<Path>, b: seq<Path>)
    requires Distinct(a) && Distinct(b) && forall p :: p in a ==> p !in b
    ensures Distinct(a + b)
  {
    var s := a + b;
    forall i {:trigger s[..i]} | 0 <= i < |s| ensures s[i] !in s[..i] {
      if i < |a| {
        assert s[..i] == a[..i];
      } else {
        assert s[..i] == a + b[..i - |a|] && s[i] in b;
      }
    }
  }

  lemma {:induction false} EntryPathsConcat(a: seq<IndexEntry>, b: seq<IndexEntry>)
    ensures EntryPaths(a + b) == EntryPaths(a) + EntryPaths(b)
  {
  }

  /** The client's plan uploads exactly the paths it wins. */
  lemma {:induction false} ClientUploads(hash: Bytes -> Digest, k: Planned, p: Path)
    requires WellPlanned(hash, k)
    ensures var c, s := IndexToSnapshot(k.clientIndex), IndexToSnapshot(k.serverIndex);
      (exists op :: op in Uploads(c, s, [], PathsOf(c) + PathsOf(s)) && op.path == p) <==> ClientWins(k, p)
  {
    var c, s := IndexToSnapshot(k.clientIndex), IndexToSnapshot(k.serverIndex);
    assert PathsOf(c) + PathsOf(s) == PathsOf(s) + PathsOf(c);
    Verdicts(hash, k, p);
    WantedPaths(s, c, p);
  }

  /** The client pushes exactly the paths it wins. */
  lemma {:induction false} ClientPushes(hash: Bytes -> Digest, k: Planned)
    requires WellPlanned(hash, k)
    ensures var ps := DealOf(k).clientPush; Distinct(ps) && forall p :: p in ps <==> ClientWins(k, p)
    ensures forall e :: e in ToPush(k) ==> e in k.clientIndex.entries
  {
    var c, s := IndexToSnapshot(k.clientIndex), IndexToSnapshot(k.serverIndex);
    var wanted := Uploads(c, s, [], PathsOf(c) + PathsOf(s));
    forall p ensures (exists op :: op in wanted && op.path == p) <==> ClientWins(k, p) {
      ClientUploads(hash, k, p);
    }
    ClientList(hash, k, wanted);
  }

  /** Reading the operations for the paths the client wins from its index. */
  lemma {:induction false} ClientList(hash: Bytes -> Digest, k: Planned, wanted: set<SyncOperation>)
    requires Describes(hash, k.clientIndex.entries, k.client) && Lists(k.clientPlan.uploads, wanted)
    requires forall p :: (exists op :: op in wanted && op.path == p) <==> ClientWins(k, p)
    ensures var ps := DealOf(k).clientPush; Distinct(ps) && forall p :: p in ps <==> ClientWins(k, p)
    ensures forall e :: e in ToPush(k) ==> e in k.clientIndex.entries
  {
    forall op | op in wanted ensures op.path in EntryPaths(k.clientIndex.entries) {
      assert ClientWins(k, op.path);
    }
    ListedPaths(k.clientPlan.uploads, wanted, k.clientIndex.entries);
  }

  /** Reading a list of wins followed by a list of clashes from the server's index. */
  lemma {:induction false} ServerList(hash: Bytes -> Digest, k: Planned, wins: seq<SyncOperation>,
                                      clashes: seq<SyncOperation>,
                                      w: set<SyncOperation>, c: set<SyncOperation>)
    requires WellPlanned(hash, k) && Lists(wins, w) && Lists(clashes, c)
    requires forall p :: (exists op :: op in w && op.path == p) <==>
               Wins(IndexToSnapshot(k.serverIndex), IndexToSnapshot(k.clientIndex), [], p)
    requires forall p :: (exists op :: op in c && op.path == p) <==>
               Clash(IndexToSnapshot(k.clientIndex), IndexToSnapshot(k.serverIndex), [], [], p)
    ensures var es := Lookup(wins, k.serverIndex.entries) + Lookup(clashes, k.serverIndex.entries);
      && Distinct(EntryPaths(es)) && (forall p :: p in EntryPaths(es) <==> ServerWins(k, p))
      && (forall e :: e in es ==> e in k.serverIndex.entries)
  {
    var es := k.serverIndex.entries;
    forall op | op in w || op in c ensures op.path in EntryPaths(es) {
      Verdicts(hash, k, op.path);
    }
    ListedPaths(wins, w, es);
    ListedPaths(clashes, c, es);
    var a, b := Lookup(wins, es), Lookup(clashes, es);
    EntryPathsConcat(a, b);
    forall p ensures p in EntryPaths(a + b) <==> ServerWins(k, p)
             ensures !(p in EntryPaths(a) && p in EntryPaths(b))
    {
      Verdicts(hash, k, p);
    }
    DistinctConcat(EntryPaths(a), EntryPaths(b));
  }

  lemma {:induction false} WantedPaths(c: Snapshot, s: Snapshot, p: Path)
    ensures var scope := PathsOf(c) + PathsOf(s);
      && ((exists op :: op in Downloads(c, s, [], scope) && op.path == p) <==> Wins(s, c, [], p))
      && ((exists op :: op in Uploads(s, c, [], scope) && op.path == p) <==> Wins(s, c, [], p))
      && ((exists op :: op in Conflicts(c, s, [], [], scope) && op.path == p) <==> Clash(c, s, [], [], p))
  {
    var scope := PathsOf(c) + PathsOf(s);
    if Wins(s, c, [], p) {
      var down, up := Download(p, VersionIn(s, p), ByPath(s)[p].size), Upload(p, VersionIn(s, p), ByPath(s)[p].size);
      assert p in scope && down in Downloads(c, s, [], scope) && down.path == p;
      assert up in Uploads(s, c, [], scope) && up.path == p;
    }
    if Clash(c, s, [], [], p) {
      var op := Conflict(p, VersionIn(c, p), VersionIn(s, p));
      assert p in scope && op in Conflicts(c, s, [], [], scope) && op.path == p;
    }
  }

  /** The client expects exactly the paths the server wins. */
  lemma {:induction false} ClientExpects(hash: Bytes -> Digest, k: Planned)
    requires WellPlanned(hash, k)
    ensures var ps := EntryPaths(ToPull(k)); Distinct(ps) && forall p :: p in ps <==> ServerWins(k, p)
    ensures forall e :: e in ToPull(k) ==> e in k.serverIndex.entries
  {
    var c, s := IndexToSnapshot(k.clientIndex), IndexToSnapshot(k.serverIndex);
    var scope := PathsOf(c) + PathsOf(s);
    forall p { WantedPaths(c, s, p); }
    ServerList(hash, k, k.clientPlan.downloads, k.clientPlan.conflicts,
               Downloads(c, s, [], scope), Conflicts(c, s, [], [], scope));
  }

  /** The server pushes exactly the paths it wins. */
  lemma {:induction false} ServerPushes(hash: Bytes -> Digest, k: Planned)
    requires WellPlanned(hash, k)
    ensures var ps := DealOf(k).serverPush; Distinct(ps) && forall p :: p in ps <==> ServerWins(k, p)
    ensures forall e :: e in ToPushToClient(k) ==> e in k.serverIndex.entries
  {
    var c, s := IndexToSnapshot(k.clientIndex), IndexToSnapshot(k.serverIndex);
    var scope := PathsOf(c) + PathsOf(s);
    assert scope == PathsOf(s) + PathsOf(c);
    forall p
      ensures (exists op :: op in Uploads(s, c, [], scope) && op.path == p) <==> Wins(s, c, [], p)
      ensures (exists op :: op in Conflicts(s, c, [], [], scope) && op.path == p) <==> Clash(c, s, [], [], p)
    {
      WantedPaths(c, s, p);
      WantedPaths(s, c, p);
      Verdicts(hash, k, p);
    }
    ServerList(hash, k, k.serverPlan.uploads, k.serverPlan.conflicts,
               Uploads(s, c, [], scope), Conflicts(s, c, [], [], scope));
  }

  lemma {:induction false} SameMembersSameLength(a: seq<Path>, b: seq<Path>)
    requires Distinct(a) && Distinct(b) && forall p :: p in a <==> p in b
    ensures |a| == |b|
  {
    DistinctCardinality(a);
    DistinctCardinality(b);
    assert ToSet(a) == ToSet(b);
  }

  /** Pushing exactly what one wins makes a sound deal. */
  lemma {:induction false} WinnersMakeSoundDeal(k: Planned, up: seq<Path>, down: seq<Path>)
    requires OrdinaryNames(k.client.Keys + k.server.Keys)
    requires Distinct(up) && Distinct(down)
    requires forall p :: p in up <==> ClientWins(k, p)
    requires forall p :: p in down <==> ServerWins(k, p)
    ensures Sound(Deal(k.client, k.server, up, down))
  {
    forall p | p in k.client && p in k.server && p !in up && p !in down ensures k.client[p] == k.server[p] {
      assert !ClientWins(k, p) && !ServerWins(k, p);
    }
  }

  /**
   Two ends that plan independently strike a sound deal: what the server pushes is what the client
   expects, each path travels at most once and in one direction, and what does not travel is
   already equal.
   */
  lemma {:induction false} PlansAgree(hash: Bytes -> Digest, k: Planned)
    requires WellPlanned(hash, k)
    ensures Sound(DealOf(k))
    ensures forall p :: p in DealOf(k).clientPush <==> ClientWins(k, p)
    ensures forall p :: p in DealOf(k).serverPush <==> ServerWins(k, p)
    ensures forall p :: p in EntryPaths(ToPull(k)) <==> ServerWins(k, p)
    ensures |ToPull(k)| == |DealOf(k).serverPush|
  {
    var up, down, pulls := DealOf(k).clientPush, DealOf(k).serverPush, EntryPaths(ToPull(k));
    assert Distinct(up) && forall p :: p in up <==> ClientWins(k, p) by { ClientPushes(hash, k); }
    assert Distinct(down) && forall p :: p in down <==> ServerWins(k, p) by { ServerPushes(hash, k); }
    assert Distinct(pulls) && forall p :: p in pulls <==> ServerWins(k, p) by { ClientExpects(hash, k); }
    WinnersMakeSoundDeal(k, up, down);
    SameMembersSameLength(pulls, down);
  }
}
