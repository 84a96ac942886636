/**
 What a session leaves behind: the winning copy of every path on both sides, and backups on one.
 */
module SessionOutcome {
  import opened Basics
  import opened Versions
  import opened BackupNames
  import opened Reconciler
  import opened Orchestrator
  import opened Session
  import opened SessionStreams
  import opened SessionFiles
  import opened SessionRuns
  import opened SessionTheorems
  import opened SessionPlan

  // ----- what the two folders have in common afterwards

  /** The two sides' backups never share a name. */
  lemma {:induction false} BackupsDisjoint(hash: Bytes -> Digest, d: Deal, s: System, q: Path)
    requires Sound(d) && SystemInv(hash, d, s) && Done(s.client) && Done(s.server)
    ensures !(IsBackup(hash, s.client, ViewOf(d, Client), q) && IsBackup(hash, s.server, ViewOf(d, Server), q))
  {
    var v, w := ViewOf(d, Client), ViewOf(d, Server);
    if IsBackup(hash, s.client, v, q) && IsBackup(hash, s.server, w, q) {
      var a :| a in s.client.log.backups && a in v.theirs && q == BackupOf(hash, s.client, v, a);
      var b :| b in s.server.log.backups && b in w.theirs && q == BackupOf(hash, s.server, w, b);
      BackupParts(hash, s.client.loser, v.theirs[a]);
      BackupParts(hash, s.server.loser, w.theirs[b]);
      BackupInjective(a, s.client.log.backups[a], s.client.loser, ShortHash(hash(v.theirs[a])),
                      b, s.server.log.backups[b], s.server.loser, ShortHash(hash(w.theirs[b])));
      BothDoneSettled(hash, d, s);
    }
  }

  /** After a session the sides differ only in backups: whatever both hold is equal. */
  ghost predicate OnlyAdditions(a: Files, b: Files) {
    forall p :: p in a && p in b ==> a[p] == b[p]
  }

  lemma {:induction false} AfterSession(hash: Bytes -> Digest, d: Deal, s: System)
    requires Sound(d) && SystemInv(hash, d, s) && Done(s.client) && Done(s.server)
    ensures OnlyAdditions(s.client.files, s.server.files)
    ensures forall p :: p in s.client.files && p !in s.server.files <==> IsBackup(hash, s.client, ViewOf(d, Client), p)
    ensures forall p :: p in s.server.files && p !in s.client.files <==> IsBackup(hash, s.server, ViewOf(d, Server), p)
  {
    forall p
      ensures p in s.client.files && p in s.server.files ==> s.client.files[p] == s.server.files[p]
      ensures p in s.client.files && p !in s.server.files <==> IsBackup(hash, s.client, ViewOf(d, Client), p)
      ensures p in s.server.files && p !in s.client.files <==> IsBackup(hash, s.server, ViewOf(d, Server), p)
    {
      AfterSessionAt(hash, d, s, p);
    }
  }

  lemma {:induction false} AfterSessionAt(hash: Bytes -> Digest, d: Deal, s: System, p: Path)
    requires Sound(d) && SystemInv(hash, d, s) && Done(s.client) && Done(s.server)
    ensures p in s.client.files && p in s.server.files ==> s.client.files[p] == s.server.files[p]
    ensures p in s.client.files && p !in s.server.files <==> IsBackup(hash, s.client, ViewOf(d, Client), p)
    ensures p in s.server.files && p !in s.client.files <==> IsBackup(hash, s.server, ViewOf(d, Server), p)
  {
    BothDoneSettled(hash, d, s);
    SideHas(hash, d, s.client, Client, p);
    SideHas(hash, d, s.server, Server, p);
    BackupsDisjoint(hash, d, s, p);
  }

  /** A settled side has the original paths and its backups, which are no original paths. */
  lemma {:induction false} SideHas(hash: Bytes -> Digest, d: Deal, x: Peer, r: Role, p: Path)
    requires Sound(d) && HoldsSettled(hash, d, x, ViewOf(d, r))
    ensures p in x.files <==> p in Universe(d) || IsBackup(hash, x, ViewOf(d, r), p)
    ensures p in Universe(d) ==> !IsBackup(hash, x, ViewOf(d, r), p)
    ensures p in Universe(d) ==> p in x.files && x.files[p] == Settled(d, p)
  {
    SoundViews(d, r);
  }

  lemma {:induction false} MergedSide(hash: Bytes -> Digest, d: Deal, x: Peer, r: Role)
    requires Sound(d) && OnlyAdditions(d.client, d.server) && HoldsSettled(hash, d, x, ViewOf(d, r))
    ensures x.log.backups == map[] && x.files == d.client + d.server
  {
    assert forall p :: p !in x.log.backups;
    assert x.log.backups.Keys == {};
    assert forall q :: !IsBackup(hash, x, ViewOf(d, r), q);
    var merged := d.client + d.server;
    assert forall p :: p in x.files <==> p in merged;
    assert forall p :: p in x.files ==> x.files[p] == merged[p];
  }

  /** From folders that only add to each other, a session merges them and makes no backup. */
  lemma {:induction false} MergingSession(hash: Bytes -> Digest, k: Planned, s: System)
    requires WellPlanned(hash, k) && OnlyAdditions(k.client, k.server)
    requires SystemInv(hash, DealOf(k), s) && Done(s.client) && Done(s.server)
    ensures forall p :: p in DealOf(k).clientPush <==> p in k.client && p !in k.server
    ensures forall p :: p in DealOf(k).serverPush <==> p in k.server && p !in k.client
    ensures s.client.log.backups == map[] && s.server.log.backups == map[]
    ensures s.client.files == k.client + k.server && s.server.files == k.client + k.server
  {
    PlansAgree(hash, k);
    BothDoneSettled(hash, DealOf(k), s);
    MergedSide(hash, DealOf(k), s.client, Client);
    MergedSide(hash, DealOf(k), s.server, Server);
  }

  /** Between equal folders there is nothing to do, whatever the indexes and stamps. */
  lemma {:induction false} EqualFoldersPlanNothing(hash: Bytes -> Digest, k: Planned)
    requires WellPlanned(hash, k) && k.client == k.server
    ensures k.clientPlan == SyncPlan([], [], [], []) && k.serverPlan == SyncPlan([], [], [], [])
  {
    var c, s := IndexToSnapshot(k.clientIndex), IndexToSnapshot(k.serverIndex);
    forall p
      ensures !Wins(c, s, [], p) && !Wins(s, c, [], p) && !Clash(c, s, [], [], p) && !Clash(s, c, [], [], p)
    {
      Verdicts(hash, k, p);
    }
    NoVerdictNoPlan(k.clientPlan, c, s);
    NoVerdictNoPlan(k.serverPlan, s, c);
  }

  lemma {:induction false} NoVerdictNoPlan(plan: SyncPlan, a: Snapshot, b: Snapshot)
    requires IsPlan(plan, a, b, [], [])
    requires forall p :: !Wins(a, b, [], p) && !Wins(b, a, [], p) && !Clash(a, b, [], [], p)
    ensures plan == SyncPlan([], [], [], [])
  {
    var scope := PathsOf(a) + PathsOf(b);
    assert Uploads(a, b, [], scope) == {} && Downloads(a, b, [], scope) == {} && Conflicts(a, b, [], [], scope) == {};
    ListsLength(plan.uploads, {});
    ListsLength(plan.downloads, {});
    ListsLength(plan.conflicts, {});
  }

  /** A state in which a session planned as `k` says has come to its regular end on both sides. */
  ghost predicate Completed(hash: Bytes -> Digest, k: Planned, s: System) {
    && WellPlanned(hash, k) && Done(s.client) && Done(s.server)
    && exists states: seq<System>, actions: seq<Action> ::
         Run(hash, Universe(DealOf(k)), states, actions) && Start(hash, DealOf(k), states[0]) && s == states[|actions|]
  }

  lemma {:induction false} CompletedInv(hash: Bytes -> Digest, k: Planned, s: System)
    requires Completed(hash, k, s)
    ensures Sound(DealOf(k)) && SystemInv(hash, DealOf(k), s)
  {
    PlansAgree(hash, k);
    var states: seq<System>, actions: seq<Action> :|
      Run(hash, Universe(DealOf(k)), states, actions) && Start(hash, DealOf(k), states[0]) && s == states[|actions|];
    RunKeepsInv(hash, DealOf(k), states, actions, |actions|);
  }

  /** The client's copy where only the client has the path or its version dominates, otherwise the server's. */
  ghost function Winner(k: Planned, p: Path): Bytes
    requires p in k.client || p in k.server
  {
    if p in k.client && (p !in k.server || Above(Announced(k.clientIndex, p), Announced(k.serverIndex, p)))
    then k.client[p] else k.server[p]
  }

  /** What a deal settles on is the winning copy. */
  lemma {:induction false} SettledIsWinner(hash: Bytes -> Digest, k: Planned, p: Path)
    requires WellPlanned(hash, k) && (p in k.client || p in k.server)
    ensures Sound(DealOf(k)) && Settled(DealOf(k), p) == Winner(k, p)
  {
    PlansAgree(hash, k);
    assert p in DealOf(k).serverPush <==> ServerWins(k, p);
  }

  /** After a completed session both folders hold the winning copy of every path either side had. */
  lemma {:induction false} FoldersConverge(hash: Bytes -> Digest, k: Planned, s: System, p: Path)
    requires Completed(hash, k, s) && (p in k.client || p in k.server)
    ensures p in s.client.files && p in s.server.files
    ensures s.client.files[p] == s.server.files[p] == Winner(k, p)
  {
    SettledIsWinner(hash, k, p);
    CompletedInv(hash, k, s);
    BothDoneSettled(hash, DealOf(k), s);
    assert p in Universe(DealOf(k));
  }

  /** If the path has to travel, the copy that travels passes the receiver's limits. */
  ghost predicate TravelsFitAt(k: Planned, p: Path) {
    (ClientWins(k, p) ==> Fits(p, k.client[p])) && (ServerWins(k, p) ==> Fits(p, k.server[p]))
  }

  /**
   From any two folders, a run without aborts that has come to rest is a completed session, and so
   leaves the winning copy of every path on both sides, exactly when every file that has to travel
   fits the receiver's limits.
   */
  lemma {:induction false} FaultFreeRunConverges(hash: Bytes -> Digest, k: Planned, states: seq<System>,
                                                 actions: seq<Action>)
    requires WellPlanned(hash, k) && Run(hash, Universe(DealOf(k)), states, actions) &&
      Start(hash, DealOf(k), states[0])
    requires NoAborts(actions) && !CanAct(states[|actions|])
    ensures Completed(hash, k, states[|actions|]) <==> forall p :: TravelsFitAt(k, p)
  {
    PlansAgree(hash, k);
    CompletesIffAllFit(hash, DealOf(k), states, actions);
    AllFitAt(hash, k);
  }

  lemma {:induction false} AllFitAt(hash: Bytes -> Digest, k: Planned)
    requires WellPlanned(hash, k) && Sound(DealOf(k))
    requires forall p :: p in DealOf(k).clientPush <==> ClientWins(k, p)
    requires forall p :: p in DealOf(k).serverPush <==> ServerWins(k, p)
    ensures AllFit(DealOf(k)) <==> forall p :: TravelsFitAt(k, p)
  {
    if forall p :: TravelsFitAt(k, p) {
      forall p
        ensures p in DealOf(k).clientPush ==> Fits(p, k.client[p])
        ensures p in DealOf(k).serverPush ==> Fits(p, k.server[p])
      {
        assert TravelsFitAt(k, p);
      }
    }
  }

  lemma {:induction false} AfterCompleted(hash: Bytes -> Digest, k: Planned, s: System)
    requires Completed(hash, k, s)
    ensures OnlyAdditions(s.client.files, s.server.files)
    ensures forall p :: p in s.client.files && p !in s.server.files <==>
      IsBackup(hash, s.client, ViewOf(DealOf(k), Client), p)
    ensures forall p :: p in s.server.files && p !in s.client.files <==>
      IsBackup(hash, s.server, ViewOf(DealOf(k), Server), p)
  {
    CompletedInv(hash, k, s);
    AfterSession(hash, DealOf(k), s);
  }

  lemma {:induction false} MergingCompleted(hash: Bytes -> Digest, k: Planned, s: System)
    requires Completed(hash, k, s) && OnlyAdditions(k.client, k.server)
    ensures forall p :: p in DealOf(k).clientPush <==> p in k.client && p !in k.server
    ensures forall p :: p in DealOf(k).serverPush <==> p in k.server && p !in k.client
    ensures s.client.log.backups == map[] && s.server.log.backups == map[]
    ensures s.client.files == k.client + k.server && s.server.files == k.client + k.server
  {
    CompletedInv(hash, k, s);
    MergingSession(hash, k, s);
  }

  // ----- scanned folders

  /** The folder was scanned and stamped by a device: the index announces modification times as versions. */
  ghost predicate StampedBy(index: Index, scan: Snapshot, device: DeviceId) {
    index.deviceId == device && index.entries == StampedEntries(scan)
  }

  lemma {:induction false} StampedIsSeen(index: Index, scan: Snapshot, device: DeviceId)
    requires StampedBy(index, scan, device)
    ensures IndexToSnapshot(index) == Seen(scan, device)
  {
  }

  /**
   Which copy a completed session leaves of a file that differs, in terms of the two modification
   times and device ids: the client's copy exactly when it is later and the devices are the same or the
   server's time is the epoch; in every other case, a tie included, the server's.
   */
  lemma {:induction false} StampedFoldersConverge(hash: Bytes -> Digest, k: Planned, s: System, p: Path,
                                                  c: Snapshot, dc: DeviceId, v: Snapshot, dv: DeviceId)
    requires Completed(hash, k, s) && StampedBy(k.clientIndex, c, dc) && StampedBy(k.serverIndex, v, dv)
    requires p in k.client && p in k.server && k.client[p] != k.server[p]
    ensures p in ByPath(c) && p in ByPath(v) && p in s.client.files && p in s.server.files
    ensures var mc, mv := ByPath(c)[p].mtime, ByPath(v)[p].mtime;
      s.client.files[p] == s.server.files[p] ==
        if Later(mc, mv) && (dc == dv || mv == 0) then k.client[p] else k.server[p]
  {
    FoldersConverge(hash, k, s, p);
    StampedIsSeen(k.clientIndex, c, dc);
    StampedIsSeen(k.serverIndex, v, dv);
    SnapshotOf(hash, k.clientIndex, k.client);
    SnapshotOf(hash, k.serverIndex, k.server);
    SeenByPath(c, dc);
    SeenByPath(v, dv);
    WireVersionOrder(dc, AsU64(ByPath(c)[p].mtime), dv, AsU64(ByPath(v)[p].mtime));
    LaterIsLarger(ByPath(c)[p].mtime, ByPath(v)[p].mtime);
    LaterIsLarger(ByPath(v)[p].mtime, ByPath(c)[p].mtime);
  }
}
