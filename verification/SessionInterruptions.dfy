/**
 Sessions that may be cut short anywhere, one after the other: nothing is ever lost, exactly which
 interruption leaves a temporary file, and which names the next session can no longer rely on.
 */
module SessionInterruptions {
  import opened Basics
  import opened Runs
  import opened BackupNames
  import opened Session
  import opened SessionStreams
  import opened SessionFiles
  import opened SessionRuns
  import opened SessionTheorems
  import opened SessionPlan
  import opened SessionRemains
  import opened SessionOutcome
  import opened SessionSeries

  // ----- no loss over many sessions

  /** `q` is `p`, a backup of it, a backup of such a backup, and so on, at most `n` times over. */
  ghost predicate Descends(q: Path, p: Path, n: nat)
    decreases n
  {
    q == p || (n > 0 && exists b :: IsBackupNameOf(q, b) && Descends(b, p, n - 1))
  }

  ghost predicate SurvivesDeep(files: Files, p: Path, data: Bytes, n: nat) {
    exists q :: Descends(q, p, n) && q in files && files[q] == data
  }

  ghost predicate NoLossDeep(before: Files, now: Files, n: nat) {
    forall p :: p in before ==> SurvivesDeep(now, p, before[p], n)
  }

  lemma {:induction false} DescendsMore(q: Path, p: Path, n: nat)
    requires Descends(q, p, n)
    ensures Descends(q, p, n + 1)
    decreases n
  {
    if q != p {
      var b :| IsBackupNameOf(q, b) && Descends(b, p, n - 1);
      DescendsMore(b, p, n - 1);
    }
  }

  /** One more session adds at most one more generation of backups. */
  lemma {:induction false} NoLossAgain(a: Files, b: Files, c: Files, n: nat)
    requires NoLossDeep(a, b, n) && NoLoss(b, c)
    ensures NoLossDeep(a, c, n + 1)
  {
    forall p | p in a ensures SurvivesDeep(c, p, a[p], n + 1) {
      assert SurvivesDeep(b, p, a[p], n);
      var q :| Descends(q, p, n) && q in b && b[q] == a[p];
      assert Survives(c, q, b[q]);
      if q in c && c[q] == b[q] {
        DescendsMore(q, p, n);
      } else {
        var e :| IsBackupNameOf(e, q) && e in c && c[e] == b[q];
        assert Descends(e, p, n + 1);
      }
    }
  }

  lemma {:induction false} EndsWithoutLoss(hash: Bytes -> Digest, k: Planned, s: System)
    requires WellPlanned(hash, k) && Ends(hash, k, s)
    ensures NoLoss(k.client, s.client.files) && NoLoss(k.server, s.server.files)
  {
    PlansAgree(hash, k);
    var states: seq<System>, actions: seq<Action> :|
      Run(hash, Universe(DealOf(k)), states, actions) && Start(hash, DealOf(k), states[0]) && s == states[|actions|];
    NothingIsLost(hash, DealOf(k), states, actions, |actions|);
  }

  /**
   However many sessions follow each other and wherever each of them is cut short, every content a
   side held before the first is still on that side: at its path, at a backup of its path, or at a
   backup of such a backup, with at most one generation per session.
   */
  lemma {:induction false} NothingIsEverLost(hash: Bytes -> Digest, rounds: seq<Round>, i: nat, r: Role)
    requires AnySeries(hash, rounds) && i < |rounds|
    ensures NoLossDeep(Folders(rounds, r)[0].0, Folders(rounds, r)[i].1, i + 1)
  {
    SeriesKeepsSide(hash, rounds, r);
    NoLossChain(Folders(rounds, r), i);
  }

  /** One side's folder before and after each session. */
  ghost function Folders(rounds: seq<Round>, r: Role): seq<(Files, Files)> {
    seq(|rounds|, i requires 0 <= i < |rounds| =>
      if r.Client? then (rounds[i].plan.client, rounds[i].end.client.files)
      else (rounds[i].plan.server, rounds[i].end.server.files))
  }

  ghost predicate KeepsAll(folders: seq<(Files, Files)>) {
    && (forall i :: 0 <= i < |folders| ==> NoLoss(folders[i].0, folders[i].1))
    && (forall i :: 0 < i < |folders| ==> folders[i].0 == folders[i - 1].1)
  }

  lemma {:induction false} SeriesKeepsSide(hash: Bytes -> Digest, rounds: seq<Round>, r: Role)
    requires AnySeries(hash, rounds)
    ensures KeepsAll(Folders(rounds, r))
  {
    var folders := Folders(rounds, r);
    forall i | 0 <= i < |folders| ensures NoLoss(folders[i].0, folders[i].1) {
      EveryRoundWellPlanned(hash, rounds, i);
      EndsWithoutLoss(hash, rounds[i].plan, rounds[i].end);
    }
    forall i | 0 < i < |folders| ensures folders[i].0 == folders[i - 1].1 {
      assert Follows(hash, rounds[i - 1], rounds[i]);
    }
  }

  lemma {:induction false} NoLossChain(folders: seq<(Files, Files)>, i: nat)
    requires KeepsAll(folders) && i < |folders|
    ensures NoLossDeep(folders[0].0, folders[i].1, i + 1)
  {
    if i == 0 {
      NoLossDeepStart(folders[0].0);
    } else {
      NoLossChain(folders, i - 1);
    }
    NoLossAgain(folders[0].0, folders[i].0, folders[i].1, i);
  }

  lemma {:induction false} NoLossDeepStart(a: Files)
    ensures NoLossDeep(a, a, 0)
  {
    forall p | p in a ensures SurvivesDeep(a, p, a[p], 0) {
      assert Descends(p, p, 0);
    }
  }

  // ----- which interruption leaves a temporary file

  /** The folder holds the temporary file of some original path. */
  ghost predicate LeftTemp(files: Files, universe: set<Path>) {
    exists p :: p in universe && TempPath(p) in files
  }

  lemma {:induction false} TidyHasNoTemp(hash: Bytes -> Digest, x: Peer, v: View)
    requires FilesInv(hash, x, v) && OrdinaryNames(Names(v))
    ensures !LeftTemp(x.files, Names(v))
  {
    forall p | p in Names(v) ensures TempPath(p) !in x.files {
      if TempPath(p) in x.files {
        var q :| q in x.log.backups && q in v.theirs && TempPath(p) == BackupOf(hash, x, v, q);
        BackupParts(hash, x.loser, v.theirs[q]);
        TempIsNoBackup(p, q, x.log.backups[q], x.loser, ShortHash(hash(v.theirs[q])));
      }
    }
  }

  /** Of the points at which a commit can stop, exactly the one before the rename leaves the temporary file. */
  lemma {:induction false} StageLeavesTemp(hash: Bytes -> Digest, x: Peer, v: View, p: Path, ts: U64, stage: nat)
    requires Committing(hash, x, v, p, ts) && stage <= 3
    ensures var files := CommitStage(x.files, p, v.theirs[p], BackupName(hash, x.loser, p, v.theirs[p], ts), stage);
      LeftTemp(files, Names(v)) <==> stage == 2
  {
    var b := BackupName(hash, x.loser, p, v.theirs[p], ts);
    var files := CommitStage(x.files, p, v.theirs[p], b, stage);
    assert p in Names(v);
    TidyHasNoTemp(hash, x, v);
    if stage == 2 {
      assert TempPath(p) in files;
    } else if stage == 3 {
      CommitKeepsFiles(hash, x, v, p, ts);
      TidyHasNoTemp(hash, Commit(hash, x, p, v.theirs[p], ts), v);
    } else {
      forall q | q in Names(v) ensures TempPath(q) !in files {
        BackupParts(hash, x.loser, v.theirs[p]);
        TempIsNoBackup(q, p, ts, x.loser, ShortHash(hash(v.theirs[p])));
      }
    }
  }

  /** An interruption of side `r` between writing aside and renaming. */
  predicate StopsSide(a: Action, r: Role) {
    StopsBeforeRename(a) && a.role == r
  }

  lemma {:induction false} StepLeavesTemp(hash: Bytes -> Digest, d: Deal, s: System, a: Action, r: Role)
    requires Sound(d) && SystemInv(hash, d, s) && Enabled(hash, Universe(d), s, a)
    ensures LeftTemp(Side(Apply(hash, Universe(d), s, a), r).files, Universe(d)) <==>
      LeftTemp(Side(s, r).files, Universe(d)) || StopsSide(a, r)
  {
    if a.role == r {
      match a {
        case Sends(_) => SendSameRole(Side(s, r));
        case Receives(_, ts) =>
          SoundViews(d, r);
          PairOf(hash, d, s, r);
          TidyHasNoTemp(hash, Side(s, r), ViewOf(d, r));
          ReceiverStaysTidy(hash, d, s, r, ts);
          TidyHasNoTemp(hash, Receive(hash, Side(s, r), Inbox(s, r)[0], ts).0, ViewOf(d, r));
        case Aborts(_) =>
        case AbortsInCommit(_, ts, stage) => AbortLeavesTemp(hash, d, s, r, ts, stage);
      }
    }
  }

  lemma {:induction false} AbortLeavesTemp(hash: Bytes -> Digest, d: Deal, s: System, r: Role, ts: U64, stage: nat)
    requires Sound(d) && SystemInv(hash, d, s) && Enabled(hash, Universe(d), s, AbortsInCommit(r, ts, stage))
    ensures !LeftTemp(Side(s, r).files, Universe(d))
    ensures LeftTemp(Side(Apply(hash, Universe(d), s, AbortsInCommit(r, ts, stage)), r).files, Universe(d)) <==>
      stage == 2
  {
    var x, v := Side(s, r), ViewOf(d, r);
    SoundViews(d, r);
    PairOf(hash, d, s, r);
    NextIsExpected(x, Side(s, Other(r)), Inbox(s, r), v, ViewOf(d, Other(r)));
    AboutToCommit(hash, x, v, Inbox(s, r)[0], ts);
    TidyHasNoTemp(hash, x, v);
    StageLeavesTemp(hash, x, v, Inbox(s, r)[0].chunk.path, ts, stage);
  }

  /**
   At any point of any run, a side's folder holds the temporary file of an original path exactly when
   the side was interrupted between writing a file aside and renaming it.
   */
  lemma {:induction false} TempLeftIff(hash: Bytes -> Digest, d: Deal, states: seq<System>, actions: seq<Action>,
                                       i: nat, r: Role)
    requires Sound(d) && Run(hash, Universe(d), states, actions) && Start(hash, d, states[0]) && i < |states|
    ensures LeftTemp(Side(states[i], r).files, Universe(d)) <==>
      exists j :: 0 <= j < i && StopsSide(actions[j], r)
  {
    StartInv(hash, d, states[0]);
    StartHasNoTemp(hash, d, states[0], r);
    StepsKeepInv(hash, d);
    StepsLeaveTemp(hash, d, r);
    FlagAlongRun(Next(hash, Universe(d)), s => SystemInv(hash, d, s), HasTemp(d, r), a => StopsSide(a, r),
                 states, actions, i);
  }

  ghost function HasTemp(d: Deal, r: Role): System -> bool {
    s => LeftTemp(Side(s, r).files, Universe(d))
  }

  lemma {:induction false} StepsLeaveTemp(hash: Bytes -> Digest, d: Deal, r: Role)
    requires Sound(d)
    ensures Latches(Next(hash, Universe(d)), s => SystemInv(hash, d, s), HasTemp(d, r), a => StopsSide(a, r))
  {
    forall s, a, s' | SystemInv(hash, d, s) && Next(hash, Universe(d))(s, a, s')
      ensures HasTemp(d, r)(s') <==> HasTemp(d, r)(s) || StopsSide(a, r)
    {
      StepLeavesTemp(hash, d, s, a, r);
    }
  }

  lemma {:induction false} StartHasNoTemp(hash: Bytes -> Digest, d: Deal, s: System, r: Role)
    requires Sound(d) && Start(hash, d, s)
    ensures !LeftTemp(Side(s, r).files, Universe(d))
  {
    SoundViews(d, r);
    assert Side(s, r).files == ViewOf(d, r).mine;
  }

  /**
   From plain names, the names of the two folders are plain at any point of any run exactly when no
   side has been interrupted between writing a file aside and renaming it.
   */
  lemma {:induction false} PlainNamesIff(hash: Bytes -> Digest, d: Deal, states: seq<System>, actions: seq<Action>)
    requires Sound(d) && Run(hash, Universe(d), states, actions) && Start(hash, d, states[0])
    requires PlainNames(Universe(d))
    ensures PlainNames(NamesIn(states[|actions|])) <==> NoTempStops(actions)
  {
    var s := states[|actions|];
    if NoTempStops(actions) {
      RunLeavesRemnants(hash, d, states, actions, |actions|, false);
      PlainCarriesOver(d, s);
    } else {
      var j :| 0 <= j < |actions| && StopsBeforeRename(actions[j]);
      var r := actions[j].role;
      assert StopsSide(actions[j], r);
      TempLeftIff(hash, d, states, actions, |actions|, r);
      TempIsNotPlain(s, r, Universe(d));
    }
  }

  lemma {:induction false} TempIsNotPlain(s: System, r: Role, universe: set<Path>)
    requires LeftTemp(Side(s, r).files, universe)
    ensures !PlainNames(NamesIn(s))
  {
    var p :| p in universe && TempPath(p) in Side(s, r).files;
    TempPathIsTempName(p);
    assert TempPath(p) in NamesIn(s);
  }

  // ----- which names an uninterrupted session leaves

  /** Names are not ordinary once a temporary file lies beside a path it can be written for. */
  lemma {:induction false} TempIsNotOrdinary(files: Files, universe: set<Path>, names: set<Path>)
    requires LeftTemp(files, universe) && universe + files.Keys <= names
    ensures !OrdinaryNames(names)
  {
    var p :| p in universe && TempPath(p) in files;
    assert p in names && TempPath(p) in names;
  }

  /** A backup that a completed session has left on either side. */
  ghost predicate LeftBackup(hash: Bytes -> Digest, k: Planned, s: System, q: Path) {
    IsBackup(hash, s.client, ViewOf(DealOf(k), Client), q) || IsBackup(hash, s.server, ViewOf(DealOf(k), Server), q)
  }

  lemma {:induction false} LeftBackupIsBackup(hash: Bytes -> Digest, k: Planned, s: System, q: Path)
    requires Completed(hash, k, s) && LeftBackup(hash, k, s, q)
    ensures exists p :: IsBackupNameOf(q, p)
  {
    CompletedInv(hash, k, s);
    var v := ViewOf(DealOf(k), Client);
    if IsBackup(hash, s.client, v, q) {
      var p :| p in s.client.log.backups && p in v.theirs && q == BackupOf(hash, s.client, v, p);
      NameIsBackup(hash, s.client.loser, p, v.theirs[p], s.client.log.backups[p]);
    } else {
      var w := ViewOf(DealOf(k), Server);
      var p :| p in s.server.log.backups && p in w.theirs && q == BackupOf(hash, s.server, w, p);
      NameIsBackup(hash, s.server.loser, p, w.theirs[p], s.server.log.backups[p]);
    }
  }

  /** The names after a completed session are the original ones and the backups. */
  lemma {:induction false} NamesAfter(hash: Bytes -> Digest, k: Planned, s: System, q: Path)
    requires Completed(hash, k, s)
    ensures q in NamesIn(s) <==> q in AllNames(k) || LeftBackup(hash, k, s, q)
  {
    CompletedInv(hash, k, s);
    BothDoneSettled(hash, DealOf(k), s);
    SideHas(hash, DealOf(k), s.client, Client, q);
    SideHas(hash, DealOf(k), s.server, Server, q);
  }

  lemma {:induction false} TempIsNeverBackup(p: Path, q: Path)
    ensures !IsBackupNameOf(TempPath(p), q)
  {
    if IsBackupNameOf(TempPath(p), q) {
      var ts: U64, loser: string, h: string :| PrintableParts(loser, h) && TempPath(p) == BackupPath(q, ts, loser, h);
      TempIsNoBackup(p, q, ts, loser, h);
      assert false;
    }
  }

  /**
   After a completed session the names are ordinary again exactly when no original file has the
   temporary name of one of the backups, which is the backed-up path with "..ferrisync-tmp" appended.
   */
  lemma {:induction false} OrdinaryAfterIff(hash: Bytes -> Digest, k: Planned, s: System)
    requires Completed(hash, k, s)
    ensures OrdinaryNames(NamesIn(s)) <==> forall q :: LeftBackup(hash, k, s, q) ==> TempPath(q) !in AllNames(k)
  {
    forall q ensures q in NamesIn(s) <==> q in AllNames(k) || LeftBackup(hash, k, s, q) {
      NamesAfter(hash, k, s, q);
    }
    forall q | LeftBackup(hash, k, s, q) ensures q != "" && q != DATABASE {
      LeftBackupIsBackup(hash, k, s, q);
      var p :| IsBackupNameOf(q, p);
      BackupIsPlain(q, p);
    }
    forall p ensures !LeftBackup(hash, k, s, TempPath(p)) {
      NotLeftBackup(hash, k, s, p);
    }
  }

  lemma {:induction false} NotLeftBackup(hash: Bytes -> Digest, k: Planned, s: System, p: Path)
    requires Completed(hash, k, s)
    ensures !LeftBackup(hash, k, s, TempPath(p))
  {
    if LeftBackup(hash, k, s, TempPath(p)) {
      LeftBackupIsBackup(hash, k, s, TempPath(p));
      var q :| IsBackupNameOf(TempPath(p), q);
      TempIsNeverBackup(p, q);
      assert false;
    }
  }

  /** A file in conflict with a neighbour that has its name and the temporary suffix. */
  ghost predicate Crowded(k: Planned, p: Path) {
    && p in k.client && p in k.server && k.client[p] != k.server[p] && FileName(p) != ""
    && p + TEMP_SUFFIX in k.client && p + TEMP_SUFFIX in k.server
  }

  /**
   A completed session from such a pair leaves names that are not ordinary, so the next session is
   outside what is assumed of names, although nothing was interrupted.
   */
  lemma {:induction false} CrowdedSpoilsNames(hash: Bytes -> Digest, k: Planned, s: System, p: Path)
    requires Completed(hash, k, s) && Crowded(k, p)
    ensures !OrdinaryNames(NamesIn(s))
    ensures forall next :: Continues(s, next) ==> !WellPlanned(hash, next)
  {
    var d := DealOf(k);
    CompletedInv(hash, k, s);
    PlansAgree(hash, k);
    BothDoneSettled(hash, d, s);
    if ClientWins(k, p) {
      CrowdedSide(hash, s.server, ViewOf(d, Server), p);
      TempIsNotOrdinary(s.server.files, s.server.files.Keys, NamesIn(s));
    } else {
      assert ServerWins(k, p);
      CrowdedSide(hash, s.client, ViewOf(d, Client), p);
      TempIsNotOrdinary(s.client.files, s.client.files.Keys, NamesIn(s));
    }
  }

  lemma {:induction false} CrowdedSide(hash: Bytes -> Digest, x: Peer, v: View, p: Path)
    requires BackedUp(hash, x, v) && GoodLabel(x.loser) && p in x.rx.received
    requires p in v.theirs && Conflicted(v.mine, p, v.theirs[p]) && FileName(p) != "" && p + TEMP_SUFFIX in x.files
    ensures LeftTemp(x.files, x.files.Keys)
  {
    var b := BackupOf(hash, x, v, p);
    BackupParts(hash, x.loser, v.theirs[p]);
    TempOfBackup(p, x.log.backups[p], x.loser, ShortHash(hash(v.theirs[p])));
    assert b in x.files && TempPath(b) in x.files;
  }

  /** What the next session does there: committing the backup takes the neighbour's content away. */
  lemma {:induction false} CommitTakesNeighbour(files: Files, b: Path, p: Path, data: Bytes, backup: Path)
    requires IsBackupNameOf(b, p) && FileName(p) != "" && backup != p + TEMP_SUFFIX
    ensures p + TEMP_SUFFIX !in CommitStage(files, b, data, backup, 3)
  {
    var ts: U64, loser: string, h: string :| PrintableParts(loser, h) && b == BackupPath(p, ts, loser, h);
    TempOfBackup(p, ts, loser, h);
    TempIsNoBackup(b, p, ts, loser, h);
  }
}
