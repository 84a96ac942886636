/**
 The reconciler: compares two snapshots and decides, path by path, which side's copy has to travel.
 */
module Reconciler {
  import opened Basics
  import opened Versions

  datatype SnapshotEntry = SnapshotEntry(path: Path, size: nat, hash: Digest, version: FileVersion, mtime: I64)

  type Snapshot = seq<SnapshotEntry>

  datatype Tombstone = Tombstone(path: Path, device: DeviceId, deletedAt: U64)

  datatype SyncOperation =
    | Upload(path: Path, version: FileVersion, size: nat)
    | Download(path: Path, version: FileVersion, size: nat)
    | Delete(path: Path)
    | Conflict(path: Path, localVersion: FileVersion, remoteVersion: FileVersion)

  datatype SyncPlan = SyncPlan(
    uploads: seq<SyncOperation>,
    downloads: seq<SyncOperation>,
    deletes: seq<SyncOperation>,
    conflicts: seq<SyncOperation>)

  /** The hash map built from a snapshot: a later entry for the same path replaces an earlier one. */
  function ByPath(s: Snapshot): (m: map<Path, SnapshotEntry>)
    ensures m.Keys == PathsOf(s)
    ensures forall p :: p in m ==> m[p] in s && m[p].path == p
  {
    if s == [] then map[]
    else
      var last := s[|s| - 1];
      assert s == s[..|s| - 1] + [last];
      ByPath(s[..|s| - 1])[last.path := last]
  }

  function PathsOf(s: Snapshot): set<Path> {
    set e | e in s :: e.path
  }

  function Buried(ts: seq<Tombstone>): set<Path> {
    set t | t in ts :: t.path
  }

  // ----- what each path deserves, stated without reference to how the plan is computed

  /** The first side's copy must travel to the second side. */
  ghost predicate Wins(mine: Snapshot, theirs: Snapshot, theirTombs: seq<Tombstone>, p: Path) {
    var m, t := ByPath(mine), ByPath(theirs);
    p in m &&
    if p in t then m[p].hash != t[p].hash && Above(m[p].version, t[p].version)
    else p !in Buried(theirTombs)
  }

  /** Same content on both sides: nothing to do. */
  ghost predicate Agree(a: Snapshot, b: Snapshot, p: Path) {
    var m, t := ByPath(a), ByPath(b);
    p in m && p in t && m[p].hash == t[p].hash
  }

  ghost predicate Clash(a: Snapshot, b: Snapshot, aTombs: seq<Tombstone>, bTombs: seq<Tombstone>, p: Path) {
    && p in PathsOf(a) + PathsOf(b)
    && !Agree(a, b, p)
    && !Wins(a, b, bTombs, p)
    && !Wins(b, a, aTombs, p)
  }

  /** The version a snapshot records for a path; the empty version when the path is absent. */
  ghost function VersionIn(s: Snapshot, p: Path): FileVersion {
    var m := ByPath(s);
    if p in m then m[p].version else map[]
  }

  /** The operations deserved by the paths in `scope`. */
  ghost function Uploads(local: Snapshot, remote: Snapshot, remoteTombs: seq<Tombstone>, scope: set<Path>)
    : set<SyncOperation>
  {
    set p | p in scope && Wins(local, remote, remoteTombs, p) ::
      Upload(p, VersionIn(local, p), ByPath(local)[p].size)
  }

  ghost function Downloads(local: Snapshot, remote: Snapshot, localTombs: seq<Tombstone>, scope: set<Path>)
    : set<SyncOperation>
  {
    set p | p in scope && Wins(remote, local, localTombs, p) ::
      Download(p, VersionIn(remote, p), ByPath(remote)[p].size)
  }

  ghost function Conflicts(local: Snapshot, remote: Snapshot, localTombs: seq<Tombstone>,
                           remoteTombs: seq<Tombstone>, scope: set<Path>): set<SyncOperation>
  {
    set p | p in scope && Clash(local, remote, localTombs, remoteTombs, p) ::
      Conflict(p, VersionIn(local, p), VersionIn(remote, p))
  }

  /** The list holds exactly the wanted operations, and mentions no path twice. */
  ghost predicate Lists(ops: seq<SyncOperation>, wanted: set<SyncOperation>) {
    && (forall i, j :: 0 <= i < j < |ops| ==> ops[i].path != ops[j].path)
    && (forall op :: op in ops <==> op in wanted)
  }

  /** The plan for the paths in `scope`: every deserved operation once, nothing else. */
  ghost predicate PlanWithin(plan: SyncPlan, local: Snapshot, remote: Snapshot,
                             localTombs: seq<Tombstone>, remoteTombs: seq<Tombstone>, scope: set<Path>) {
    && Lists(plan.uploads, Uploads(local, remote, remoteTombs, scope))
    && Lists(plan.downloads, Downloads(local, remote, localTombs, scope))
    && Lists(plan.conflicts, Conflicts(local, remote, localTombs, remoteTombs, scope))
    && plan.deletes == []
  }

  ghost predicate IsPlan(plan: SyncPlan, local: Snapshot, remote: Snapshot,
                         localTombs: seq<Tombstone>, remoteTombs: seq<Tombstone>) {
    PlanWithin(plan, local, remote, localTombs, remoteTombs, PathsOf(local) + PathsOf(remote))
  }

  lemma {:induction false} ListsAppend(ops: seq<SyncOperation>, wanted: set<SyncOperation>, op: SyncOperation)
    requires Lists(ops, wanted) && forall o :: o in wanted ==> o.path != op.path
    ensures Lists(ops + [op], wanted + {op})
  {
    assert forall i :: 0 <= i < |ops| ==> ops[i] in ops;
  }

  /** At most one side wins a path, and a winner rules out agreement. */
  lemma {:induction false} WinsExclusive(a: Snapshot, b: Snapshot, aTombs: seq<Tombstone>, bTombs: seq<Tombstone>,
                                         p: Path)
    ensures !(Wins(a, b, bTombs, p) && Wins(b, a, aTombs, p))
    ensures Agree(a, b, p) ==> !Wins(a, b, bTombs, p) && !Wins(b, a, aTombs, p)
  {
    if Wins(a, b, bTombs, p) && Wins(b, a, aTombs, p) {
      DominatesIsStrictOrder(ByPath(a)[p].version, ByPath(b)[p].version, map[]);
    }
  }

  lemma {:induction false} UploadsGrow(local: Snapshot, remote: Snapshot, tombs: seq<Tombstone>, scope: set<Path>,
                                       p: Path)
    ensures Uploads(local, remote, tombs, scope + {p}) ==
            Uploads(local, remote, tombs, scope) + Uploads(local, remote, tombs, {p})
  {
  }

  lemma {:induction false} DownloadsGrow(local: Snapshot, remote: Snapshot, tombs: seq<Tombstone>, scope: set<Path>,
                                         p: Path)
    ensures Downloads(local, remote, tombs, scope + {p}) ==
            Downloads(local, remote, tombs, scope) + Downloads(local, remote, tombs, {p})
  {
  }

  lemma {:induction false} ConflictsGrow(local: Snapshot, remote: Snapshot, lt: seq<Tombstone>, rt: seq<Tombstone>,
                      scope: set<Path>, p: Path)
    ensures Conflicts(local, remote, lt, rt, scope + {p}) ==
            Conflicts(local, remote, lt, rt, scope) + Conflicts(local, remote, lt, rt, {p})
  {
  }

  /** What one path contributes to the plan. */
  ghost function WithPath(plan: SyncPlan, local: Snapshot, remote: Snapshot,
                          localTombs: seq<Tombstone>, remoteTombs: seq<Tombstone>, p: Path): SyncPlan {
    if Wins(local, remote, remoteTombs, p) then
      var e := ByPath(local)[p];
      plan.(uploads := plan.uploads + [Upload(p, e.version, e.size)])
    else if Wins(remote, local, localTombs, p) then
      var e := ByPath(remote)[p];
      plan.(downloads := plan.downloads + [Download(p, e.version, e.size)])
    else if Clash(local, remote, localTombs, remoteTombs, p) then
      plan.(conflicts := plan.conflicts + [Conflict(p, VersionIn(local, p), VersionIn(remote, p))])
    else plan
  }

  lemma {:induction false} PlanGrows(plan: SyncPlan, local: Snapshot, remote: Snapshot, localTombs: seq<Tombstone>,
                  remoteTombs: seq<Tombstone>, scope: set<Path>, p: Path)
    requires PlanWithin(plan, local, remote, localTombs, remoteTombs, scope) && p !in scope
    ensures PlanWithin(WithPath(plan, local, remote, localTombs, remoteTombs, p),
                       local, remote, localTombs, remoteTombs, scope + {p})
  {
    WinsExclusive(local, remote, localTombs, remoteTombs, p);
    UploadsGrow(local, remote, remoteTombs, scope, p);
    DownloadsGrow(local, remote, localTombs, scope, p);
    ConflictsGrow(local, remote, localTombs, remoteTombs, scope, p);
    if Wins(local, remote, remoteTombs, p) {
      var e := ByPath(local)[p];
      ListsAppend(plan.uploads, Uploads(local, remote, remoteTombs, scope), Upload(p, e.version, e.size));
      assert Uploads(local, remote, remoteTombs, {p}) == {Upload(p, e.version, e.size)};
    } else if Wins(remote, local, localTombs, p) {
      var e := ByPath(remote)[p];
      ListsAppend(plan.downloads, Downloads(local, remote, localTombs, scope), Download(p, e.version, e.size));
      assert Downloads(local, remote, localTombs, {p}) == {Download(p, e.version, e.size)};
    } else if Clash(local, remote, localTombs, remoteTombs, p) {
      ListsAppend(plan.conflicts, Conflicts(local, remote, localTombs, remoteTombs, scope),
                  Conflict(p, VersionIn(local, p), VersionIn(remote, p)));
    }
  }

  /** The reconciler. The set of all paths is visited in an arbitrary order. */
  method Reconcile(local: Snapshot, remote: Snapshot, localTombs: seq<Tombstone>, remoteTombs: seq<Tombstone>)
    returns (plan: SyncPlan)
    ensures IsPlan(plan, local, remote, localTombs, remoteTombs)
  {
    plan := SyncPlan([], [], [], []);
    var localMap, remoteMap := ByPath(local), ByPath(remote);
    var allPaths := PathsOf(local) + PathsOf(remote);
    var localDeleted, remoteDeleted := Buried(localTombs), Buried(remoteTombs);
    var todo := allPaths;
    ghost var visited: set<Path> := {};
    while todo != {}
      invariant todo <= allPaths && visited == allPaths - todo
      invariant PlanWithin(plan, local, remote, localTombs, remoteTombs, visited)
    {
      var path :| path in todo;
      ghost var before := plan;
      WinsExclusive(local, remote, localTombs, remoteTombs, path);
      PlanGrows(plan, local, remote, localTombs, remoteTombs, visited, path);
      if path in localMap && path in remoteMap {
        var l, r := localMap[path], remoteMap[path];
        if l.hash != r.hash {
          var localNewer := Dominates(l.version, r.version);
          if localNewer {
            plan := plan.(uploads := plan.uploads + [Upload(path, l.version, l.size)]);
          } else {
            var remoteNewer := Dominates(r.version, l.version);
            if remoteNewer {
              plan := plan.(downloads := plan.downloads + [Download(path, r.version, r.size)]);
            } else {
              plan := plan.(conflicts := plan.conflicts + [Conflict(path, l.version, r.version)]);
            }
          }
        }
      } else if path in localMap {
        var l := localMap[path];
        if path in remoteDeleted {
          plan := plan.(conflicts := plan.conflicts + [Conflict(path, l.version, map[])]);
        } else {
          plan := plan.(uploads := plan.uploads + [Upload(path, l.version, l.size)]);
        }
      } else if path in remoteMap {
        var r := remoteMap[path];
        if path in localDeleted {
          plan := plan.(conflicts := plan.conflicts + [Conflict(path, map[], r.version)]);
        } else {
          plan := plan.(downloads := plan.downloads + [Download(path, r.version, r.size)]);
        }
      }
      assert plan == WithPath(before, local, remote, localTombs, remoteTombs, path);
      todo := todo - {path};
      visited := visited + {path};
    }
    assert visited == allPaths;
  }

  // ----- the verdicts, case by case

  /** A later entry for a path replaces an earlier one. */
  lemma {:induction false} LastEntryCounts(s: Snapshot, i: nat)
    requires i < |s| && forall j :: i < j < |s| ==> s[j].path != s[i].path
    ensures s[i].path in ByPath(s) && ByPath(s)[s[i].path] == s[i]
  {
    var n := |s| - 1;
    if i < n {
      LastEntryCounts(s[..n], i);
      assert s[n].path != s[i].path;
    }
  }

  /** A path that only one side has: its copy travels unless the other side has buried the path. */
  lemma {:induction false} OneSided(a: Snapshot, b: Snapshot, aTombs: seq<Tombstone>, bTombs: seq<Tombstone>, p: Path)
    requires p in PathsOf(a) && p !in PathsOf(b)
    ensures Wins(a, b, bTombs, p) <==> !exists t :: t in bTombs && t.path == p
    ensures Clash(a, b, aTombs, bTombs, p) <==> exists t :: t in bTombs && t.path == p
    ensures Clash(b, a, bTombs, aTombs, p) <==> exists t :: t in bTombs && t.path == p
    ensures !Wins(b, a, aTombs, p) && !Agree(a, b, p)
  {
    assert p in Buried(bTombs) <==> exists t :: t in bTombs && t.path == p;
  }

  /** A path that both sides have: tombstones do not matter, equal digests agree, else the versions decide. */
  lemma {:induction false} TwoSided(a: Snapshot, b: Snapshot, aTombs: seq<Tombstone>, bTombs: seq<Tombstone>, p: Path)
    requires p in PathsOf(a) && p in PathsOf(b)
    ensures var x, y := ByPath(a)[p], ByPath(b)[p];
      && (Agree(a, b, p) <==> x.hash == y.hash)
      && (Wins(a, b, bTombs, p) <==> x.hash != y.hash && Above(x.version, y.version))
      && (Clash(a, b, aTombs, bTombs, p) <==>
            x.hash != y.hash && !Above(x.version, y.version) && !Above(y.version, x.version))
  {
  }

  /** The operations of a plan carry the versions and sizes of the entries they are about. */
  lemma {:induction false} PlanCarries(plan: SyncPlan, local: Snapshot, remote: Snapshot, localTombs: seq<Tombstone>,
                                       remoteTombs: seq<Tombstone>, op: SyncOperation)
    requires IsPlan(plan, local, remote, localTombs, remoteTombs)
    ensures op in plan.uploads ==>
      op.Upload? && op.path in ByPath(local) &&
      op.version == ByPath(local)[op.path].version && op.size == ByPath(local)[op.path].size
    ensures op in plan.downloads ==>
      op.Download? && op.path in ByPath(remote) &&
      op.version == ByPath(remote)[op.path].version && op.size == ByPath(remote)[op.path].size
    ensures op in plan.conflicts ==>
      op.Conflict? &&
      op.localVersion == VersionIn(local, op.path) && op.remoteVersion == VersionIn(remote, op.path)
  {
  }

  // ----- mirrored plans

  /** An operation as the other end of the session sees it. */
  function Mirror(op: SyncOperation): SyncOperation {
    match op
    case Upload(p, v, s) => Download(p, v, s)
    case Download(p, v, s) => Upload(p, v, s)
    case Delete(p) => Delete(p)
    case Conflict(p, l, r) => Conflict(p, r, l)
  }

  /** Two lists hold mirrored operations, each once. */
  ghost predicate Mirrored(mine: seq<SyncOperation>, theirs: seq<SyncOperation>) {
    && |mine| == |theirs|
    && (forall op :: op in mine <==> Mirror(op) in theirs)
  }

  ghost function OpPaths(ops: seq<SyncOperation>): set<Path> {
    set op | op in ops :: op.path
  }

  lemma {:induction false} ListsLength(ops: seq<SyncOperation>, wanted: set<SyncOperation>)
    requires Lists(ops, wanted)
    ensures |ops| == |wanted|
  {
    assert Distinct(ops);
    DistinctCardinality(ops);
    assert ToSet(ops) == wanted;
  }

  ghost function MirrorSet(ops: set<SyncOperation>): set<SyncOperation> {
    set op | op in ops :: Mirror(op)
  }

  lemma {:induction false} MirrorSetSize(ops: set<SyncOperation>)
    ensures |MirrorSet(ops)| == |ops|
  {
    if ops != {} {
      var op :| op in ops;
      MirrorSetSize(ops - {op});
      assert forall o :: Mirror(Mirror(o)) == o;
      assert MirrorSet(ops) == MirrorSet(ops - {op}) + {Mirror(op)};
    }
  }

  lemma {:induction false} MirroredLists(mine: seq<SyncOperation>, theirs: seq<SyncOperation>,
                      m: set<SyncOperation>, t: set<SyncOperation>)
    requires Lists(mine, m) && Lists(theirs, t) && t == MirrorSet(m)
    ensures Mirrored(mine, theirs)
  {
    ListsLength(mine, m);
    ListsLength(theirs, t);
    MirrorSetSize(m);
    forall op ensures op in mine <==> Mirror(op) in theirs {
      if Mirror(op) in theirs {
        var o :| o in m && Mirror(o) == Mirror(op);
        assert Mirror(Mirror(o)) == Mirror(Mirror(op));
      }
    }
  }

  /**
   Two ends that never talk about their plans still compute mirror images: whatever order each of
   them visits the paths in, one end's uploads are the other end's downloads, the conflicts are the
   same with the sides swapped, and no path is moved in both directions.
   */
  lemma {:induction false} PlansMirror(mine: SyncPlan, theirs: SyncPlan, a: Snapshot, b: Snapshot,
                    aTombs: seq<Tombstone>, bTombs: seq<Tombstone>)
    requires IsPlan(mine, a, b, aTombs, bTombs)
    requires IsPlan(theirs, b, a, bTombs, aTombs)
    ensures Mirrored(mine.uploads, theirs.downloads)
    ensures Mirrored(mine.downloads, theirs.uploads)
    ensures Mirrored(mine.conflicts, theirs.conflicts)
    ensures OpPaths(mine.uploads) !! OpPaths(mine.downloads) !! OpPaths(mine.conflicts)
  {
    var ps := PathsOf(a) + PathsOf(b);
    assert ps == PathsOf(b) + PathsOf(a);
    UploadsMirrored(a, b, bTombs, ps);
    UploadsMirrored(b, a, aTombs, ps);
    ConflictsMirrored(a, b, aTombs, bTombs, ps);
    MirroredLists(mine.uploads, theirs.downloads, Uploads(a, b, bTombs, ps), Downloads(b, a, bTombs, ps));
    MirroredLists(mine.downloads, theirs.uploads, Downloads(a, b, aTombs, ps), Uploads(b, a, aTombs, ps));
    MirroredLists(mine.conflicts, theirs.conflicts,
                  Conflicts(a, b, aTombs, bTombs, ps), Conflicts(b, a, bTombs, aTombs, ps));
    forall p { WinsExclusive(a, b, aTombs, bTombs, p); }
  }

  lemma {:induction false} UploadsMirrored(a: Snapshot, b: Snapshot, bTombs: seq<Tombstone>, scope: set<Path>)
    ensures Downloads(b, a, bTombs, scope) == MirrorSet(Uploads(a, b, bTombs, scope))
    ensures Uploads(a, b, bTombs, scope) == MirrorSet(Downloads(b, a, bTombs, scope))
  {
    forall p | p in scope && Wins(a, b, bTombs, p)
      ensures Download(p, VersionIn(a, p), ByPath(a)[p].size) in MirrorSet(Uploads(a, b, bTombs, scope))
      ensures Upload(p, VersionIn(a, p), ByPath(a)[p].size) in MirrorSet(Downloads(b, a, bTombs, scope))
    {
      var op := Upload(p, VersionIn(a, p), ByPath(a)[p].size);
      assert op in Uploads(a, b, bTombs, scope) && Mirror(op) in Downloads(b, a, bTombs, scope);
      assert Mirror(Mirror(op)) == op;
    }
  }

  lemma {:induction false} ConflictsMirrored(a: Snapshot, b: Snapshot, aTombs: seq<Tombstone>,
                                             bTombs: seq<Tombstone>, scope: set<Path>)
    ensures Conflicts(b, a, bTombs, aTombs, scope) == MirrorSet(Conflicts(a, b, aTombs, bTombs, scope))
  {
    forall p | p in scope && Clash(b, a, bTombs, aTombs, p)
      ensures Conflict(p, VersionIn(b, p), VersionIn(a, p)) in MirrorSet(Conflicts(a, b, aTombs, bTombs, scope))
    {
      assert Clash(a, b, aTombs, bTombs, p);
      var op := Conflict(p, VersionIn(a, p), VersionIn(b, p));
      assert op in Conflicts(a, b, aTombs, bTombs, scope);
      assert Mirror(op) == Conflict(p, VersionIn(b, p), VersionIn(a, p));
    }
    forall p | p in scope && Clash(a, b, aTombs, bTombs, p)
      ensures Mirror(Conflict(p, VersionIn(a, p), VersionIn(b, p))) in Conflicts(b, a, bTombs, aTombs, scope)
    {
      assert Clash(b, a, bTombs, aTombs, p);
    }
  }
}
