/**
 What a session leaves for the next one, wherever it was cut short: which names and contents the two
 folders can hold, and that the assumptions made of the first pair of folders carry over.
 */
module SessionRemains {
  import opened Basics
  import opened Runs
  import opened BackupNames
  import opened Session
  import opened SessionStreams
  import opened SessionFiles
  import opened SessionRuns
  import opened SessionPlan

  // ----- names

  /** No file has the empty name, the name of the database or a name a temporary file can have. */
  ghost predicate PlainNames(names: set<Path>) {
    && "" !in names && DATABASE !in names
    && forall p :: p in names ==> !IsTempName(p)
  }

  lemma {:induction false} PlainIsOrdinary(names: set<Path>)
    requires PlainNames(names)
    ensures OrdinaryNames(names)
  {
    forall p | p in names ensures TempPath(p) !in names {
      TempPathIsTempName(p);
    }
  }

  lemma {:induction false} BackupIsPlain(b: Path, p: Path)
    requires IsBackupNameOf(b, p)
    ensures b != "" && b != DATABASE && !IsTempName(b)
  {
    var ts: U64, loser: string, h: string :| PrintableParts(loser, h) && b == BackupPath(p, ts, loser, h);
    BackupIsNoTempName(p, ts, loser, h);
    assert |b| > |TAG| > |DATABASE|;
  }

  lemma {:induction false} BackupOfOne(b: Path, p: Path, q: Path)
    requires IsBackupNameOf(b, p) && IsBackupNameOf(b, q)
    ensures p == q
  {
    var ts: U64, loser: string, h: string :| PrintableParts(loser, h) && b == BackupPath(p, ts, loser, h);
    var ts': U64, loser': string, h': string :| PrintableParts(loser', h') && b == BackupPath(q, ts', loser', h');
    BackupInjective(p, ts, loser, h, q, ts', loser', h');
  }

  // ----- what a folder can hold after a session cut short anywhere

  /** The name is new: a backup of a file that was to be replaced, or the temporary file of one. */
  ghost predicate NewName(q: Path, v: View, temp: bool) {
    exists p :: p in v.theirPush && (IsBackupNameOf(q, p) || (temp && q == TempPath(p)))
  }

  /**
   At an original path there is one of its two original copies; files that the other side lacks are
   untouched, files that its limits refuse have not arrived, and all other names are new. The flag
   says whether a temporary file may have been left.
   */
  ghost predicate Remnant(files: Files, v: View, temp: bool) {
    && (forall q :: q in files && q !in Names(v) ==> NewName(q, v, temp))
    && (forall p :: p in files && p in Names(v) ==>
          (p in v.mine && files[p] == v.mine[p]) || (p in v.theirs && files[p] == v.theirs[p]))
    && (forall p :: p in v.mine && p !in v.theirs ==> p in files && files[p] == v.mine[p])
    && (forall p :: p in v.theirs && p !in v.mine && !Fits(p, v.theirs[p]) ==> p !in files)
  }

  ghost predicate ReceivedPushed(x: Peer, v: View) {
    forall p :: p in x.rx.received ==> p in v.theirPush
  }

  lemma {:induction false} TidyIsRemnant(hash: Bytes -> Digest, x: Peer, v: View, temp: bool)
    requires FilesInv(hash, x, v) && ReceivedPushed(x, v) && Half(v.theirs, v.theirPush)
    ensures Remnant(x.files, v, temp)
  {
    forall q | q in x.files && q !in Names(v) ensures NewName(q, v, temp) {
      var p :| p in x.log.backups && p in v.theirs && q == BackupOf(hash, x, v, p);
      NameIsBackup(hash, x.loser, p, v.theirs[p], x.log.backups[p]);
      assert p in v.theirPush && IsBackupNameOf(q, p);
    }
    forall p | p in x.files && p in Names(v)
      ensures (p in v.mine && x.files[p] == v.mine[p]) || (p in v.theirs && x.files[p] == v.theirs[p])
    {
      assert !IsBackup(hash, x, v, p);
    }
    forall p | p in v.theirs && p !in v.mine && !Fits(p, v.theirs[p]) ensures p !in x.files {
      assert p in Names(v) && !IsBackup(hash, x, v, p);
    }
  }

  /** A commit stopped before its end touches only its own path, its backup and its temporary file. */
  lemma {:induction false} StageIsRemnant(hash: Bytes -> Digest, x: Peer, v: View, p: Path, ts: U64, stage: nat,
                                          temp: bool)
    requires Committing(hash, x, v, p, ts) && Remnant(x.files, v, temp)
    requires p in v.theirPush && stage < 3 && (stage == 2 ==> temp)
    ensures Remnant(CommitStage(x.files, p, v.theirs[p], BackupName(hash, x.loser, p, v.theirs[p], ts), stage), v, temp)
  {
    var b := BackupName(hash, x.loser, p, v.theirs[p], ts);
    var files := CommitStage(x.files, p, v.theirs[p], b, stage);
    NewNames(hash, x, v, p, ts);
    NameIsBackup(hash, x.loser, p, v.theirs[p], ts);
    StageFrame(x.files, p, v.theirs[p], b, stage);
    assert p in Names(v) && TempPath(p) !in Names(v);
    forall q | q in files && q !in Names(v) ensures NewName(q, v, temp) {
      if q !in x.files {
        assert q == b || q == TempPath(p);
      }
    }
    forall q | q in files && q in Names(v) ensures q in x.files && files[q] == x.files[q] {
    }
  }

  // ----- every run

  lemma {:induction false} ReceiverStaysTidy(hash: Bytes -> Digest, d: Deal, s: System, r: Role, ts: U64)
    requires Sound(d) && SystemInv(hash, d, s) && Enabled(hash, Universe(d), s, Receives(r, ts))
    ensures FilesInv(hash, Receive(hash, Side(s, r), Inbox(s, r)[0], ts).0, ViewOf(d, r))
  {
    var x, v, m := Side(s, r), ViewOf(d, r), Inbox(s, r)[0];
    SoundViews(d, r);
    PairOf(hash, d, s, r);
    NextIsExpected(x, Side(s, Other(r)), Inbox(s, r), v, ViewOf(d, Other(r)));
    if Receive(hash, x, m, ts).0.failed {
      ReceiveFailsUnchanged(hash, x, m, ts);
      SameFiles(hash, x, Receive(hash, x, m, ts).0, v);
    } else {
      ReceiveKeepsFiles(hash, x, v, m, ts);
    }
  }

  ghost predicate Remnants(d: Deal, s: System, temp: bool) {
    Remnant(s.client.files, ViewOf(d, Client), temp) && Remnant(s.server.files, ViewOf(d, Server), temp)
  }

  /** An interruption between writing a file aside and renaming it. */
  predicate StopsBeforeRename(a: Action) {
    a.AbortsInCommit? && a.stage == 2
  }

  lemma {:induction false} ReceivedArePushed(x: Peer, v: View)
    requires Receiving(x, v)
    ensures ReceivedPushed(x, v)
  {
  }

  lemma {:induction false} ReceiveLeavesRemnant(hash: Bytes -> Digest, d: Deal, s: System, r: Role, ts: U64, temp: bool)
    requires Sound(d) && SystemInv(hash, d, s) && Enabled(hash, Universe(d), s, Receives(r, ts))
    ensures Remnant(Side(Apply(hash, Universe(d), s, Receives(r, ts)), r).files, ViewOf(d, r), temp)
  {
    ReceiverStaysTidy(hash, d, s, r, ts);
    var s' := Apply(hash, Universe(d), s, Receives(r, ts));
    ActionKeepsInv(hash, d, s, Receives(r, ts));
    SoundViews(d, r);
    PairOf(hash, d, s', r);
    ReceivedArePushed(Side(s', r), ViewOf(d, r));
    TidyIsRemnant(hash, Side(s', r), ViewOf(d, r), temp);
  }

  lemma {:induction false} AbortLeavesRemnant(hash: Bytes -> Digest, d: Deal, s: System, r: Role, ts: U64,
                                              stage: nat, temp: bool)
    requires Sound(d) && SystemInv(hash, d, s) && Enabled(hash, Universe(d), s, AbortsInCommit(r, ts, stage))
    requires Remnant(Side(s, r).files, ViewOf(d, r), temp) && (stage == 2 ==> temp)
    ensures Remnant(Side(Apply(hash, Universe(d), s, AbortsInCommit(r, ts, stage)), r).files, ViewOf(d, r), temp)
  {
    var x, v, m := Side(s, r), ViewOf(d, r), Inbox(s, r)[0];
    SoundViews(d, r);
    PairOf(hash, d, s, r);
    NextIsExpected(x, Side(s, Other(r)), Inbox(s, r), v, ViewOf(d, Other(r)));
    CutIsRemnant(hash, x, v, m, ts, stage, temp);
  }

  /** The same for a commit that is about to happen, stopped anywhere or not at all. */
  lemma {:induction false} CutIsRemnant(hash: Bytes -> Digest, x: Peer, v: View, m: Message, ts: U64, stage: nat,
                                        temp: bool)
    requires PeerInv(hash, x, v) && GoodView(v) && CanReceive(x) && |Unread(x, v)| > 0 && m == Unread(x, v)[0]
    requires FreshBackup(hash, Names(v), x, m, ts) && Completes(hash, x, m).Some?
    requires Remnant(x.files, v, temp) && stage <= 3 && (stage == 2 ==> temp)
    ensures var p, data := m.chunk.path, Completes(hash, x, m).value;
      Remnant(CommitStage(x.files, p, data, BackupName(hash, x.loser, p, data, ts), stage), v, temp)
  {
    AboutToTake(hash, x, v, m, ts);
    ReceivedArePushed(x, v);
    StopIsRemnant(hash, x, v, m.chunk.path, ts, stage, temp);
  }

  lemma {:induction false} AboutToTake(hash: Bytes -> Digest, x: Peer, v: View, m: Message, ts: U64)
    requires PeerInv(hash, x, v) && GoodView(v) && CanReceive(x) && |Unread(x, v)| > 0 && m == Unread(x, v)[0]
    requires FreshBackup(hash, Names(v), x, m, ts) && Completes(hash, x, m).Some?
    ensures m.chunk.path in v.theirPush && Committing(hash, x, v, m.chunk.path, ts)
    ensures Completes(hash, x, m).value == v.theirs[m.chunk.path]
  {
    AboutToCommit(hash, x, v, m, ts);
    CompletesAFile(hash, x, v, m);
    CompletedFile(hash, x, v, m, ts);
  }

  lemma {:induction false} StopIsRemnant(hash: Bytes -> Digest, x: Peer, v: View, p: Path, ts: U64, stage: nat,
                                         temp: bool)
    requires Committing(hash, x, v, p, ts) && Remnant(x.files, v, temp) && ReceivedPushed(x, v)
    requires p in v.theirPush && Half(v.theirs, v.theirPush) && stage <= 3 && (stage == 2 ==> temp)
    ensures Remnant(CommitStage(x.files, p, v.theirs[p], BackupName(hash, x.loser, p, v.theirs[p], ts), stage), v, temp)
  {
    if stage < 3 {
      StageIsRemnant(hash, x, v, p, ts, stage, temp);
    } else {
      CommitIsRemnant(hash, x, v, p, ts, temp);
    }
  }

  lemma {:induction false} CommitIsRemnant(hash: Bytes -> Digest, x: Peer, v: View, p: Path, ts: U64, temp: bool)
    requires Committing(hash, x, v, p, ts) && ReceivedPushed(x, v) && p in v.theirPush && Half(v.theirs, v.theirPush)
    ensures Remnant(Commit(hash, x, p, v.theirs[p], ts).files, v, temp)
  {
    CommitKeepsFiles(hash, x, v, p, ts);
    TidyIsRemnant(hash, Commit(hash, x, p, v.theirs[p], ts), v, temp);
  }

  lemma {:induction false} SideLeavesRemnant(hash: Bytes -> Digest, d: Deal, s: System, a: Action, temp: bool)
    requires Sound(d) && SystemInv(hash, d, s) && Enabled(hash, Universe(d), s, a) && (StopsBeforeRename(a) ==> temp)
    requires Remnant(Side(s, a.role).files, ViewOf(d, a.role), temp)
    ensures Remnant(Side(Apply(hash, Universe(d), s, a), a.role).files, ViewOf(d, a.role), temp)
  {
    match a {
      case Sends(r) => SendSameRole(Side(s, r));
      case Receives(r, ts) => ReceiveLeavesRemnant(hash, d, s, r, ts, temp);
      case Aborts(_) =>
      case AbortsInCommit(r, ts, stage) => AbortLeavesRemnant(hash, d, s, r, ts, stage, temp);
    }
  }

  lemma {:induction false} StepLeavesRemnants(hash: Bytes -> Digest, d: Deal, s: System, a: Action, temp: bool)
    requires Sound(d) && SystemInv(hash, d, s) && Remnants(d, s, temp) && Enabled(hash, Universe(d), s, a)
    requires StopsBeforeRename(a) ==> temp
    ensures Remnants(d, Apply(hash, Universe(d), s, a), temp)
  {
    SideLeavesRemnant(hash, d, s, a, temp);
  }

  /** A step, which may stop before a rename only if the flag allows it. */
  ghost function StepWith(hash: Bytes -> Digest, universe: set<Path>, temp: bool): (System, Action, System) -> bool {
    (s: System, a: Action, s': System) =>
      Enabled(hash, universe, s, a) && s' == Apply(hash, universe, s, a) && (StopsBeforeRename(a) ==> temp)
  }

  ghost predicate LeftBehind(hash: Bytes -> Digest, d: Deal, s: System, temp: bool) {
    SystemInv(hash, d, s) && Remnants(d, s, temp)
  }

  lemma {:induction false} StepsLeaveRemnants(hash: Bytes -> Digest, d: Deal, temp: bool)
    requires Sound(d)
    ensures Preserves(StepWith(hash, Universe(d), temp), s => LeftBehind(hash, d, s, temp))
  {
    forall s, a, s' | LeftBehind(hash, d, s, temp) && StepWith(hash, Universe(d), temp)(s, a, s')
      ensures LeftBehind(hash, d, s', temp)
    {
      ActionKeepsInv(hash, d, s, a);
      StepLeavesRemnants(hash, d, s, a, temp);
    }
  }

  lemma {:induction false} StartIsRemnant(hash: Bytes -> Digest, d: Deal, s: System, temp: bool)
    requires Sound(d) && Start(hash, d, s)
    ensures LeftBehind(hash, d, s, temp)
  {
    StartInv(hash, d, s);
    SoundViews(d, Client);
    SoundViews(d, Server);
    TidyIsRemnant(hash, s.client, ViewOf(d, Client), temp);
    TidyIsRemnant(hash, s.server, ViewOf(d, Server), temp);
  }

  /** No action stops before a rename. */
  ghost predicate NoTempStops(actions: seq<Action>) {
    forall i :: 0 <= i < |actions| ==> !StopsBeforeRename(actions[i])
  }

  /** What any run leaves behind at any point. */
  lemma {:induction false} RunLeavesRemnants(hash: Bytes -> Digest, d: Deal, states: seq<System>, actions: seq<Action>,
                                             i: nat, temp: bool)
    requires Sound(d) && Run(hash, Universe(d), states, actions) && Start(hash, d, states[0]) && i < |states|
    requires NoTempStops(actions) || temp
    ensures Remnants(d, states[i], temp)
  {
    StartIsRemnant(hash, d, states[0], temp);
    StepsLeaveRemnants(hash, d, temp);
    assert IsRun(StepWith(hash, Universe(d), temp), states, actions) by {
      assert forall i :: 0 <= i < |actions| ==> Next(hash, Universe(d))(states[i], actions[i], states[i + 1]);
    }
    InvariantAlongRun(StepWith(hash, Universe(d), temp), s => LeftBehind(hash, d, s, temp), states, actions, i);
  }

  // ----- what carries over to the next session

  ghost function NamesIn(s: System): set<Path> {
    s.client.files.Keys + s.server.files.Keys
  }

  /** Plain names stay plain. */
  lemma {:induction false} PlainCarriesOver(d: Deal, s: System)
    requires Sound(d) && PlainNames(Universe(d)) && Remnants(d, s, false)
    ensures PlainNames(NamesIn(s))
  {
    SoundViews(d, Client);
    SoundViews(d, Server);
    forall q | q in NamesIn(s) && q !in Universe(d) ensures q != "" && q != DATABASE && !IsTempName(q) {
      if q in s.client.files {
        var p :| p in d.serverPush && IsBackupNameOf(q, p);
        BackupIsPlain(q, p);
      } else {
        var p :| p in d.clientPush && IsBackupNameOf(q, p);
        BackupIsPlain(q, p);
      }
    }
  }

  /** A new name is on one side only. */
  lemma {:induction false} CommonIsOriginal(d: Deal, s: System, q: Path)
    requires Sound(d) && Remnants(d, s, false) && q in s.client.files && q in s.server.files
    ensures q in Universe(d)
  {
    SoundViews(d, Client);
    SoundViews(d, Server);
    if q !in Universe(d) {
      var a :| a in d.serverPush && IsBackupNameOf(q, a);
      var b :| b in d.clientPush && IsBackupNameOf(q, b);
      BackupOfOne(q, a, b);
      assert false;
    }
  }

  /** A digest that told the original copies apart tells apart whatever is left of them. */
  lemma {:induction false} TellsApartCarriesOver(hash: Bytes -> Digest, d: Deal, s: System)
    requires Sound(d) && TellsApart(hash, d.client, d.server) && Remnants(d, s, false)
    ensures TellsApart(hash, s.client.files, s.server.files)
  {
    forall p | p in s.client.files && p in s.server.files && hash(s.client.files[p]) == hash(s.server.files[p])
      ensures s.client.files[p] == s.server.files[p]
    {
      CommonIsOriginal(d, s, p);
      SoundViews(d, Client);
      SoundViews(d, Server);
    }
  }
}
