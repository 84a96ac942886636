/**
 What a session does to a folder: every file received replaces the old one, the old one lives on
 under a backup name, and nothing else changes.
 */
module SessionFiles {
  import opened Basics
  import opened Chunks
  import opened BackupNames
  import opened Session
  import opened SessionStreams

  /** The name under which a side keeps its old copy of `p`. */
  ghost function BackupOf(hash: Bytes -> Digest, x: Peer, v: View, p: Path): Path
    requires p in x.log.backups && p in v.theirs
  {
    BackupName(hash, x.loser, p, v.theirs[p], x.log.backups[p])
  }

  ghost predicate IsBackup(hash: Bytes -> Digest, x: Peer, v: View, q: Path) {
    exists p :: p in x.log.backups && p in v.theirs && q == BackupOf(hash, x, v, p)
  }

  /** A file that the receiving side's limits let through. */
  ghost predicate Fits(p: Path, data: Bytes) {
    |p| <= MAX_PATH_LEN && |data| <= MAX_BUFFERED
  }

  /** Received files hold the other side's content. */
  ghost predicate Arrived(x: Peer, v: View) {
    forall p :: p in x.rx.received ==>
      p in v.theirs && Fits(p, v.theirs[p]) && p in x.files && x.files[p] == v.theirs[p]
  }

  /** Files that were not received are as they were. */
  ghost predicate Untouched(x: Peer, v: View) {
    forall p :: p in v.mine && p !in x.rx.received ==> p in x.files && x.files[p] == v.mine[p]
  }

  /** Exactly the files that were replaced by different content have a backup, and it holds the old content. */
  ghost predicate BackedUp(hash: Bytes -> Digest, x: Peer, v: View) {
    && (forall p :: p in x.log.backups <==>
          p in x.rx.received && p in v.theirs && Conflicted(v.mine, p, v.theirs[p]))
    && (forall p :: p in x.log.backups && p in v.theirs ==>
          var b := BackupOf(hash, x, v, p);
          b !in Names(v) && b in x.files && x.files[b] == v.mine[p])
  }

  /** Nothing else is in the folder. */
  ghost predicate NothingElse(hash: Bytes -> Digest, x: Peer, v: View) {
    forall q :: q in x.files ==> q in v.mine || q in x.rx.received || IsBackup(hash, x, v, q)
  }

  ghost predicate FilesInv(hash: Bytes -> Digest, x: Peer, v: View) {
    && GoodLabel(x.loser)
    && Arrived(x, v) && Untouched(x, v) && BackedUp(hash, x, v) && NothingElse(hash, x, v)
  }

  /** What holds before a file is committed. */
  ghost predicate Committing(hash: Bytes -> Digest, x: Peer, v: View, p: Path, ts: U64) {
    && FilesInv(hash, x, v) && OrdinaryNames(Names(v))
    && p in v.theirs && Fits(p, v.theirs[p]) && p !in x.rx.received
    && (Conflicted(x.files, p, v.theirs[p]) ==> BackupName(hash, x.loser, p, v.theirs[p], ts) !in Names(v))
  }

  lemma {:induction false} BackupParts(hash: Bytes -> Digest, loser: string, data: Bytes)
    requires GoodLabel(loser)
    ensures PrintableParts(loser, ShortHash(hash(data)))
  {
  }

  /** The two names a commit uses besides the file's own are new to the folder. */
  lemma {:induction false} NewNames(hash: Bytes -> Digest, x: Peer, v: View, p: Path, ts: U64)
    requires Committing(hash, x, v, p, ts)
    ensures var b := BackupName(hash, x.loser, p, v.theirs[p], ts);
      && (Conflicted(x.files, p, v.theirs[p]) ==> b !in x.files)
      && TempPath(p) !in x.files && TempPath(p) != b && TempPath(p) != p && b != p
  {
    var b := BackupName(hash, x.loser, p, v.theirs[p], ts);
    assert p in Names(v) && TempPath(p) !in Names(v);
    BackupParts(hash, x.loser, v.theirs[p]);
    TempIsNoBackup(p, p, ts, x.loser, ShortHash(hash(v.theirs[p])));
    assert |b| > |p|;
    if Conflicted(x.files, p, v.theirs[p]) && b in x.files {
      var q :| q in x.log.backups && q in v.theirs && b == BackupOf(hash, x, v, q);
      SameBackup(hash, x, v, p, ts, q);
    }
    if TempPath(p) in x.files {
      var q :| q in x.log.backups && q in v.theirs && TempPath(p) == BackupOf(hash, x, v, q);
      BackupParts(hash, x.loser, v.theirs[q]);
      TempIsNoBackup(p, q, x.log.backups[q], x.loser, ShortHash(hash(v.theirs[q])));
    }
  }

  lemma {:induction false} SameBackup(hash: Bytes -> Digest, x: Peer, v: View, p: Path, ts: U64, q: Path)
    requires GoodLabel(x.loser) && p in v.theirs && q in v.theirs && q in x.log.backups
    requires BackupName(hash, x.loser, p, v.theirs[p], ts) == BackupOf(hash, x, v, q)
    ensures p == q
  {
    BackupParts(hash, x.loser, v.theirs[p]);
    BackupParts(hash, x.loser, v.theirs[q]);
    BackupInjective(p, ts, x.loser, ShortHash(hash(v.theirs[p])),
                    q, x.log.backups[q], x.loser, ShortHash(hash(v.theirs[q])));
  }

  /** The net effect of a commit. */
  lemma {:induction false} CommitEffect(files: Files, p: Path, data: Bytes, b: Path)
    requires TempPath(p) !in files && TempPath(p) != b && TempPath(p) != p && b != p
    ensures CommitStage(files, p, data, b, 3) ==
      if Conflicted(files, p, data) then files[b := files[p]][p := data] else files[p := data]
  {
  }

  /** What a commit changes: the file itself, and a backup when it replaces something; nothing else. */
  lemma {:induction false} CommitChanges(hash: Bytes -> Digest, x: Peer, x': Peer, v: View, p: Path, ts: U64)
    requires Committing(hash, x, v, p, ts) && x' == Commit(hash, x, p, v.theirs[p], ts)
    ensures p in x'.files && x'.files[p] == v.theirs[p]
    ensures forall q :: q in x.files && q != p ==> q in x'.files && x'.files[q] == x.files[q]
    ensures forall q :: q in x'.files && q != p && q !in x.files ==>
      Conflicted(x.files, p, v.theirs[p]) && q == BackupName(hash, x.loser, p, v.theirs[p], ts)
  {
    NewNames(hash, x, v, p, ts);
    CommitEffect(x.files, p, v.theirs[p], BackupName(hash, x.loser, p, v.theirs[p], ts));
  }

  lemma {:induction false} CommitArrives(hash: Bytes -> Digest, x: Peer, x': Peer, v: View, p: Path, ts: U64)
    requires Committing(hash, x, v, p, ts) && x' == Commit(hash, x, p, v.theirs[p], ts)
    ensures Arrived(x', v) && Untouched(x', v)
  {
    CommitChanges(hash, x, x', v, p, ts);
    assert forall q :: q in x'.rx.received <==> q in x.rx.received || q == p;
  }

  lemma {:induction false} CommitAddsNothingElse(hash: Bytes -> Digest, x: Peer, x': Peer, v: View, p: Path, ts: U64)
    requires Committing(hash, x, v, p, ts) && x' == Commit(hash, x, p, v.theirs[p], ts)
    ensures NothingElse(hash, x', v)
  {
    CommitChanges(hash, x, x', v, p, ts);
    CommitRecords(hash, x, x', v, p, ts);
    assert forall q :: q in x'.rx.received <==> q in x.rx.received || q == p;
    forall q | q in x'.files && q !in v.mine && q !in x'.rx.received ensures IsBackup(hash, x', v, q) {
      if q !in x.files {
        assert q == BackupOf(hash, x', v, p);
      } else {
        var r :| r in x.log.backups && r in v.theirs && q == BackupOf(hash, x, v, r);
        assert q == BackupOf(hash, x', v, r);
      }
    }
  }

  lemma {:induction false} CommitKeepsFiles(hash: Bytes -> Digest, x: Peer, v: View, p: Path, ts: U64)
    requires Committing(hash, x, v, p, ts)
    ensures FilesInv(hash, Commit(hash, x, p, v.theirs[p], ts), v)
  {
    var x' := Commit(hash, x, p, v.theirs[p], ts);
    CommitArrives(hash, x, x', v, p, ts);
    CommitKeepsBackups(hash, x, x', v, p, ts);
    CommitAddsNothingElse(hash, x, x', v, p, ts);
  }

  /** A file that has not been received is in conflict exactly when the two original copies differ. */
  lemma {:induction false} CommitConflict(hash: Bytes -> Digest, x: Peer, v: View, p: Path, ts: U64)
    requires Committing(hash, x, v, p, ts)
    ensures Conflicted(x.files, p, v.theirs[p]) <==> Conflicted(v.mine, p, v.theirs[p])
    ensures p in x.files ==> p in v.mine && x.files[p] == v.mine[p]
  {
    assert p in Names(v) && !IsBackup(hash, x, v, p);
  }

  lemma {:induction false} OldBackupStays(hash: Bytes -> Digest, x: Peer, x': Peer, v: View, p: Path, q: Path)
    requires BackedUp(hash, x, v) && p in Names(v) && q in x.log.backups && q in v.theirs
    requires x'.loser == x.loser && q in x'.log.backups && x'.log.backups[q] == x.log.backups[q]
    requires forall b :: b in x.files && b != p ==> b in x'.files && x'.files[b] == x.files[b]
    ensures var b := BackupOf(hash, x', v, q); b !in Names(v) && b in x'.files && x'.files[b] == v.mine[q]
  {
    assert BackupOf(hash, x', v, q) == BackupOf(hash, x, v, q);
  }

  lemma {:induction false} NewBackupHolds(hash: Bytes -> Digest, x: Peer, x': Peer, v: View, p: Path, ts: U64)
    requires Committing(hash, x, v, p, ts) && x' == Commit(hash, x, p, v.theirs[p], ts)
    requires Conflicted(x.files, p, v.theirs[p])
    ensures var b := BackupOf(hash, x', v, p); b !in Names(v) && b in x'.files && x'.files[b] == v.mine[p]
  {
    CommitConflict(hash, x, v, p, ts);
    NewNames(hash, x, v, p, ts);
    var b := BackupName(hash, x.loser, p, v.theirs[p], ts);
    CommitEffect(x.files, p, v.theirs[p], b);
    assert BackupOf(hash, x', v, p) == b;
  }

  /** A commit adds the path to the backups exactly when the two original copies differ. */
  lemma {:induction false} CommitRecords(hash: Bytes -> Digest, x: Peer, x': Peer, v: View, p: Path, ts: U64)
    requires Committing(hash, x, v, p, ts) && x' == Commit(hash, x, p, v.theirs[p], ts)
    ensures forall q :: q in x'.log.backups <==>
              q in x'.rx.received && q in v.theirs && Conflicted(v.mine, q, v.theirs[q])
    ensures forall q :: q in x'.log.backups && q != p ==> q in x.log.backups && x'.log.backups[q] == x.log.backups[q]
    ensures p in x'.log.backups <==> Conflicted(x.files, p, v.theirs[p])
  {
    CommitConflict(hash, x, v, p, ts);
    assert forall q :: q in x'.rx.received <==> q in x.rx.received || q == p;
  }

  lemma {:induction false} CommitKeepsBackups(hash: Bytes -> Digest, x: Peer, x': Peer, v: View, p: Path, ts: U64)
    requires Committing(hash, x, v, p, ts) && x' == Commit(hash, x, p, v.theirs[p], ts)
    ensures BackedUp(hash, x', v)
  {
    CommitChanges(hash, x, x', v, p, ts);
    CommitRecords(hash, x, x', v, p, ts);
    assert p in Names(v);
    forall q | q in x'.log.backups && q in v.theirs
      ensures var b := BackupOf(hash, x', v, q); b !in Names(v) && b in x'.files && x'.files[b] == v.mine[q]
    {
      if q == p {
        NewBackupHolds(hash, x, x', v, p, ts);
      } else {
        OldBackupStays(hash, x, x', v, p, q);
      }
    }
  }

  // ----- no loss

  ghost predicate IsBackupNameOf(b: Path, p: Path) {
    exists ts: U64, loser: string, h: string :: PrintableParts(loser, h) && b == BackupPath(p, ts, loser, h)
  }

  /** The content is still in the folder, at its path or at a backup of its path. */
  ghost predicate Survives(files: Files, p: Path, data: Bytes) {
    || (p in files && files[p] == data)
    || exists b :: IsBackupNameOf(b, p) && b in files && files[b] == data
  }

  ghost predicate NoLoss(before: Files, now: Files) {
    forall p :: p in before ==> Survives(now, p, before[p])
  }

  lemma {:induction false} NameIsBackup(hash: Bytes -> Digest, loser: string, p: Path, data: Bytes, ts: U64)
    requires GoodLabel(loser)
    ensures IsBackupNameOf(BackupName(hash, loser, p, data, ts), p)
  {
    BackupParts(hash, loser, data);
  }

  lemma {:induction false} FilesInvMeansNoLoss(hash: Bytes -> Digest, x: Peer, v: View)
    requires FilesInv(hash, x, v)
    ensures NoLoss(v.mine, x.files)
  {
    forall p | p in v.mine ensures Survives(x.files, p, v.mine[p]) {
      if p in x.rx.received && x.files[p] != v.mine[p] {
        assert p in x.log.backups;
        NameIsBackup(hash, x.loser, p, v.theirs[p], x.log.backups[p]);
        assert IsBackupNameOf(BackupOf(hash, x, v, p), p);
      }
    }
  }

  /** Interrupting a commit between any two of its steps, or right after it, loses nothing. */
  lemma {:induction false} StageMeansNoLoss(hash: Bytes -> Digest, x: Peer, v: View, p: Path, ts: U64, stage: nat)
    requires Committing(hash, x, v, p, ts) && stage <= 3
    ensures NoLoss(v.mine, CommitStage(x.files, p, v.theirs[p], BackupName(hash, x.loser, p, v.theirs[p], ts), stage))
  {
    if stage == 3 {
      CommitKeepsFiles(hash, x, v, p, ts);
      FilesInvMeansNoLoss(hash, Commit(hash, x, p, v.theirs[p], ts), v);
    } else {
      forall q | q in v.mine
        ensures Survives(CommitStage(x.files, p, v.theirs[p], BackupName(hash, x.loser, p, v.theirs[p], ts), stage),
                         q, v.mine[q])
      {
        if q == p {
          CommittedSurvives(hash, x, v, p, ts, stage);
        } else {
          OthersSurvive(hash, x, v, p, ts, stage, q);
        }
      }
    }
  }

  lemma {:induction false} CommittedSurvives(hash: Bytes -> Digest, x: Peer, v: View, p: Path, ts: U64, stage: nat)
    requires Committing(hash, x, v, p, ts) && stage < 3 && p in v.mine
    ensures Survives(CommitStage(x.files, p, v.theirs[p], BackupName(hash, x.loser, p, v.theirs[p], ts), stage),
                     p, v.mine[p])
  {
    var b := BackupName(hash, x.loser, p, v.theirs[p], ts);
    var files := CommitStage(x.files, p, v.theirs[p], b, stage);
    NewNames(hash, x, v, p, ts);
    CommitConflict(hash, x, v, p, ts);
    NameIsBackup(hash, x.loser, p, v.theirs[p], ts);
    assert IsBackupNameOf(b, p);
    assert Conflicted(x.files, p, v.theirs[p]) && stage > 0 ==> b in files && files[b] == v.mine[p];
  }

  /** No stage of a commit touches any other file. */
  lemma {:induction false} StageFrame(files: Files, p: Path, data: Bytes, b: Path, stage: nat)
    requires (Conflicted(files, p, data) ==> b !in files) && TempPath(p) !in files && stage < 3
    ensures forall q :: q in files && q != p ==>
      q in CommitStage(files, p, data, b, stage) && CommitStage(files, p, data, b, stage)[q] == files[q]
  {
  }

  lemma {:induction false} OthersSurvive(hash: Bytes -> Digest, x: Peer, v: View, p: Path, ts: U64, stage: nat, q: Path)
    requires Committing(hash, x, v, p, ts) && stage < 3 && q in v.mine && q != p
    ensures Survives(CommitStage(x.files, p, v.theirs[p], BackupName(hash, x.loser, p, v.theirs[p], ts), stage),
                     q, v.mine[q])
  {
    var b := BackupName(hash, x.loser, p, v.theirs[p], ts);
    var files := CommitStage(x.files, p, v.theirs[p], b, stage);
    NewNames(hash, x, v, p, ts);
    StageFrame(x.files, p, v.theirs[p], b, stage);
    assert p in Names(v);
    if q in x.rx.received && x.files[q] != v.mine[q] {
      assert q in x.log.backups;
      var c := BackupOf(hash, x, v, q);
      NameIsBackup(hash, x.loser, q, v.theirs[q], x.log.backups[q]);
      assert IsBackupNameOf(c, q) && c != p;
    }
  }
}
