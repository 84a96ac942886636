/**
 Every pair of folders can be planned and, if its files fit, synchronized; and two concrete pairs on
 which repeated sessions do not do what one would expect.
 */
module SessionExamples {
  import opened Basics
  import opened Chunks
  import opened BackupNames
  import opened Reconciler
  import opened Orchestrator
  import opened Session
  import opened SessionFiles
  import opened SessionProgress
  import opened SessionPlan
  import opened SessionOutcome
  import opened SessionSeries
  import opened SessionInterruptions

  // ----- planning is always possible

  lemma {:induction false} ListOperations(wanted: set<SyncOperation>) returns (ops: seq<SyncOperation>)
    requires forall a, b :: a in wanted && b in wanted && a.path == b.path ==> a == b
    ensures Lists(ops, wanted)
  {
    ops := Listing(wanted);
    forall i, j | 0 <= i < j < |ops| ensures ops[i].path != ops[j].path {
      assert ops[i] in ops[..j] && ops[j] !in ops[..j];
      assert ops[i] in ops && ops[j] in ops;
    }
  }

  lemma {:induction false} PlanExists(local: Snapshot, remote: Snapshot) returns (plan: SyncPlan)
    ensures IsPlan(plan, local, remote, [], [])
  {
    var scope := PathsOf(local) + PathsOf(remote);
    var up := ListOperations(Uploads(local, remote, [], scope));
    var down := ListOperations(Downloads(local, remote, [], scope));
    var clash := ListOperations(Conflicts(local, remote, [], [], scope));
    plan := SyncPlan(up, down, [], clash);
  }

  /** An index of the folder in which every file is stamped alike. */
  lemma {:induction false} IndexExists(hash: Bytes -> Digest, files: Files) returns (index: Index)
    ensures Describes(hash, index.entries, files)
    ensures forall e :: e in index.entries ==> e.localVersion == 0
  {
    var ps := Listing(files.Keys);
    var size := (p: Path) => if p in files then |files[p]| else 0;
    var digest := (p: Path) => if p in files then hash(files[p]) else [];
    var entry := (p: Path) => IndexEntry(p, 0, 0, 0, size(p), digest(p));
    var es := seq(|ps|, i requires 0 <= i < |ps| => entry(ps[i]));
    index := Index("", "", None, es);
    assert EntryPaths(es) == ps;
    forall e | e in es ensures e.path in files && e == entry(e.path) {
      var i :| 0 <= i < |es| && es[i] == e;
      assert ps[i] in ps;
    }
  }

  lemma {:induction false} UnstampedVersion(index: Index, p: Path)
    requires forall e :: e in index.entries ==> e.localVersion == 0
    ensures Announced(index, p) == map[]
  {
    var s := IndexToSnapshot(index);
    if p in ByPath(s) {
      var i :| 0 <= i < |s| && s[i] == ByPath(s)[p];
      assert index.entries[i] in index.entries;
    }
  }

  /** Any two folders can be planned; stamped alike, the server's copy wins wherever both have one. */
  lemma {:induction false} EveryPairCanBePlanned(hash: Bytes -> Digest, client: Files, server: Files)
    returns (k: Planned)
    ensures Reconciled(hash, k) && k.client == client && k.server == server
    ensures forall p :: ClientWins(k, p) ==> p !in server
  {
    var ci := IndexExists(hash, client);
    var si := IndexExists(hash, server);
    var cp := PlanExists(IndexToSnapshot(ci), IndexToSnapshot(si));
    var sp := PlanExists(IndexToSnapshot(si), IndexToSnapshot(ci));
    k := Planned(client, server, ci, si, cp, sp);
    forall p | ClientWins(k, p) ensures p !in server {
      UnstampedVersion(ci, p);
      UnstampedVersion(si, p);
    }
  }

  lemma {:induction false} SomeStart(hash: Bytes -> Digest, d: Deal) returns (s: System)
    ensures Start(hash, d, s)
  {
    var c := NewPeer(Client, d.client, "local", map[], d.clientPush, |d.serverPush|);
    var v := NewPeer(Server, d.server, "remote", map[], d.serverPush, |d.clientPush|);
    s := System(c, v, [], []);
  }

  /** A planned session whose files fit can be completed. */
  lemma {:induction false} EveryPlanCanComplete(hash: Bytes -> Digest, k: Planned) returns (s: System)
    requires WellPlanned(hash, k) && |AllNames(k)| < STAMPS && forall p :: TravelsFitAt(k, p)
    ensures Completed(hash, k, s)
  {
    PlansAgree(hash, k);
    AllFitAt(hash, k);
    var start := SomeStart(hash, DealOf(k));
    var states, actions := SessionCanComplete(hash, DealOf(k), start);
    s := states[|actions|];
  }

  // ----- a folder pair that never settles

  /** One byte more than a receiver buffers. */
  ghost function Large(): (data: Bytes)
    ensures |data| == MAX_BUFFERED + 1
  {
    seq(MAX_BUFFERED + 1, _ => 0)
  }

  lemma {:induction false} OrdinaryName()
    ensures OrdinaryNames({"a"})
  {
    assert |TempPath("a")| > 1;
  }

  /** Two folders with one file that differs. */
  ghost predicate OneFilePair(k: Planned, p: Path, mine: Bytes, theirs: Bytes) {
    && mine != theirs && k.client == map[p := mine] && k.server == map[p := theirs]
    && forall q :: ClientWins(k, q) ==> q !in k.server
  }

  lemma {:induction false} OneFilePlanned(hash: Bytes -> Digest, k: Planned, p: Path, mine: Bytes, theirs: Bytes)
    requires Reconciled(hash, k) && OneFilePair(k, p, mine, theirs)
    requires OrdinaryNames({p}) && hash(mine) != hash(theirs)
    ensures WellPlanned(hash, k) && |AllNames(k)| < STAMPS
  {
    assert AllNames(k) == {p};
    OneFileApart(hash, p, mine, theirs);
  }

  lemma {:induction false} OneFileApart(hash: Bytes -> Digest, p: Path, mine: Bytes, theirs: Bytes)
    requires hash(mine) != hash(theirs)
    ensures TellsApart(hash, map[p := mine], map[p := theirs])
  {
  }

  lemma {:induction false} OneFileTravels(k: Planned, p: Path, mine: Bytes, theirs: Bytes, q: Path)
    requires OneFilePair(k, p, mine, theirs) && Fits(p, theirs)
    ensures TravelsFitAt(k, q)
  {
    assert q in k.client <==> q == p;
    assert q in k.server <==> q == p;
  }

  /**
   A first session that completes and a series that never settles, from a concrete pair of folders:
   the client's copy of "a" has one byte more than 256 MiB and loses against a copy of one byte.
   */
  lemma {:induction false} NeverSettles(hash: Bytes -> Digest) returns (k: Planned, s: System)
    requires hash(Large()) != hash([1])
    ensures OneFilePair(k, "a", Large(), [1])
    ensures Completed(hash, k, s) && LargeLoser(k, "a")
  {
    OrdinaryName();
    k, s := LargeExample(hash, "a", Large(), [1]);
  }

  lemma {:induction false} LargeExample(hash: Bytes -> Digest, p: Path, mine: Bytes, theirs: Bytes)
    returns (k: Planned, s: System)
    requires hash(mine) != hash(theirs) && |mine| > MAX_BUFFERED && Fits(p, theirs) && OrdinaryNames({p})
    ensures OneFilePair(k, p, mine, theirs)
    ensures Completed(hash, k, s) && LargeLoser(k, p)
  {
    k := EveryPairCanBePlanned(hash, map[p := mine], map[p := theirs]);
    OneFilePlanned(hash, k, p, mine, theirs);
    forall q ensures TravelsFitAt(k, q) {
      OneFileTravels(k, p, mine, theirs, q);
    }
    s := EveryPlanCanComplete(hash, k);
  }

  // ----- a folder pair whose names do not stay ordinary

  lemma {:induction false} PlainFileName(p: Path)
    requires '/' !in p
    ensures FileName(p) == p && TempPath(p) == Stem(p) + TEMP_SUFFIX
  {
    FileNameStartUnique(p, 0);
    assert p[..0] == "" && p[0..] == p;
  }

  lemma {:induction false} NotInConcat(c: char, a: string, b: string)
    requires c !in a && c !in b
    ensures c !in a + b
  {
  }

  /** A file name with a stem and an extension. */
  ghost predicate Dotted(p: Path, stem: string, ext: string) {
    p == stem + "." + ext && stem != "" && '/' !in stem && '/' !in ext && '.' !in ext
  }

  lemma {:induction false} TempOfDotted(p: Path, stem: string, ext: string)
    requires Dotted(p, stem, ext)
    ensures '/' !in p && FileName(p) == p && |TempPath(p)| == |stem| + |TEMP_SUFFIX|
  {
    NotInConcat('/', stem, ".");
    NotInConcat('/', stem + ".", ext);
    PlainFileName(p);
    StemBeforeDot(stem, ext);
  }

  /** The name of a file beside `p` with the temporary suffix. */
  ghost predicate Neighbours(p: Path, n: Path) {
    n == p + TEMP_SUFFIX
  }

  lemma {:induction false} TempOfNeighbour(p: Path, n: Path)
    requires '/' !in p && Neighbours(p, n)
    ensures |TempPath(n)| == |p| + 1 + |TEMP_SUFFIX|
  {
    NotInConcat('/', p, ".");
    assert n == (p + ".") + "." + "ferrisync-tmp";
    TempOfDotted(n, p + ".", "ferrisync-tmp");
  }

  /** A file with an extension of three letters, and its neighbour. */
  lemma {:induction false} OrdinaryNeighbours(p: Path, n: Path, stem: string, ext: string)
    requires Dotted(p, stem, ext) && |ext| == 3 && Neighbours(p, n)
    ensures OrdinaryNames({p, n}) && p != n && FileName(p) != ""
  {
    TempOfDotted(p, stem, ext);
    TempOfNeighbour(p, n);
    NotTheDatabase(p, n);
    DistinctLengths(p, n);
  }

  lemma {:induction false} NotTheDatabase(p: Path, n: Path)
    requires |p| >= 4 && p[|p| - 4] == '.' && Neighbours(p, n)
    ensures p != DATABASE && n != DATABASE
  {
    assert DATABASE[|DATABASE| - 4] == 'a';
  }

  lemma {:induction false} DistinctLengths(p: Path, n: Path)
    requires p != "" && n != "" && p != DATABASE && n != DATABASE
    requires |TempPath(p)| != |p| && |TempPath(p)| != |n| && |TempPath(n)| != |p| && |TempPath(n)| != |n|
    ensures OrdinaryNames({p, n})
  {
  }

  /** A folder with two files, the second of them empty. */
  ghost function TwoFiles(p: Path, n: Path, data: Bytes): Files {
    map[p := data, n := []]
  }

  /** Two such folders that differ in the first file only. */
  ghost predicate TwoFilePair(k: Planned, p: Path, n: Path) {
    && p != n && k.client == TwoFiles(p, n, [0]) && k.server == TwoFiles(p, n, [1])
    && forall q :: ClientWins(k, q) ==> q !in k.server
  }

  lemma {:induction false} TwoFilesPlanned(hash: Bytes -> Digest, k: Planned, p: Path, n: Path)
    requires Reconciled(hash, k) && TwoFilePair(k, p, n) && OrdinaryNames({p, n}) && hash([0]) != hash([1])
    ensures WellPlanned(hash, k) && |AllNames(k)| < STAMPS
  {
    assert AllNames(k) == {p, n};
    assert |{p, n}| == 2;
    TwoFilesApart(hash, p, n);
  }

  lemma {:induction false} TwoFilesApart(hash: Bytes -> Digest, p: Path, n: Path)
    requires p != n && hash([0]) != hash([1])
    ensures TellsApart(hash, TwoFiles(p, n, [0]), TwoFiles(p, n, [1]))
  {
  }

  lemma {:induction false} TwoFilesTravel(k: Planned, p: Path, n: Path, q: Path)
    requires TwoFilePair(k, p, n) && |p| <= MAX_PATH_LEN
    ensures TravelsFitAt(k, q)
  {
    assert q in k.client <==> q == p || q == n;
    assert q in k.server <==> q == p || q == n;
  }

  lemma {:induction false} TwoFilesComplete(hash: Bytes -> Digest, k: Planned, p: Path, n: Path) returns (s: System)
    requires Reconciled(hash, k) && TwoFilePair(k, p, n) && OrdinaryNames({p, n}) && hash([0]) != hash([1])
    requires |p| <= MAX_PATH_LEN
    ensures Completed(hash, k, s)
  {
    TwoFilesPlanned(hash, k, p, n);
    forall q ensures TravelsFitAt(k, q) {
      TwoFilesTravel(k, p, n, q);
    }
    s := EveryPlanCanComplete(hash, k);
  }

  /**
   Both sides hold a file such as "a.txt", in conflict, and beside it a file with that name and the
   temporary suffix. The names are ordinary and the first session completes, but no second session
   starts from ordinary names: the temporary name of the backup is the name of the neighbour.
   */
  lemma {:induction false} NeighbourSpoilsNames(hash: Bytes -> Digest, p: Path, n: Path, stem: string, ext: string)
    returns (k: Planned, s: System)
    requires Dotted(p, stem, ext) && |ext| == 3 && Neighbours(p, n)
    requires |p| <= MAX_PATH_LEN && hash([0]) != hash([1])
    ensures TwoFilePair(k, p, n) && OrdinaryNames({p, n}) && Completed(hash, k, s)
    ensures forall next :: Continues(s, next) ==> !WellPlanned(hash, next)
  {
    OrdinaryNeighbours(p, n, stem, ext);
    k, s := CrowdedExample(hash, p, n);
  }

  lemma {:induction false} CrowdedExample(hash: Bytes -> Digest, p: Path, n: Path) returns (k: Planned, s: System)
    requires OrdinaryNames({p, n}) && p != n && FileName(p) != "" && |p| <= MAX_PATH_LEN
    requires Neighbours(p, n) && hash([0]) != hash([1])
    ensures TwoFilePair(k, p, n) && Completed(hash, k, s)
    ensures forall next :: Continues(s, next) ==> !WellPlanned(hash, next)
  {
    k := EveryPairCanBePlanned(hash, TwoFiles(p, n, [0]), TwoFiles(p, n, [1]));
    s := TwoFilesComplete(hash, k, p, n);
    TwoFilesCrowded(k, p, n);
    CrowdedSpoilsNames(hash, k, s, p);
  }

  lemma {:induction false} TwoFilesCrowded(k: Planned, p: Path, n: Path)
    requires TwoFilePair(k, p, n) && Neighbours(p, n) && FileName(p) != ""
    ensures Crowded(k, p)
  {
  }
}
