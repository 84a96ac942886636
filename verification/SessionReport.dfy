/**
 What a session reports and what a dry run predicts.
 */
module SessionReport {
  import opened Basics
  import opened Runs
  import opened Chunks
  import opened Versions
  import opened Reconciler
  import opened Orchestrator
  import opened Session
  import opened SessionStreams
  import opened SessionRuns
  import opened SessionTheorems
  import opened SessionPlan
  import opened SessionFiles
  import opened SessionSeries

  // ----- byte totals

  ghost function SizeIn(files: Files, p: Path): nat {
    if p in files then |files[p]| else 0
  }

  /** Total size of a list of files. */
  ghost function TotalSize(files: Files, ps: seq<Path>): nat {
    if ps == [] then 0 else TotalSize(files, ps[..|ps| - 1]) + SizeIn(files, ps[|ps| - 1])
  }

  lemma {:induction false} TotalSizeAppend(files: Files, ps: seq<Path>, p: Path)
    ensures TotalSize(files, ps + [p]) == TotalSize(files, ps) + SizeIn(files, p)
  {
    assert (ps + [p])[..|ps|] == ps;
  }

  /** One cell per byte of a set of files. */
  ghost function CellsOf(files: Files, ps: set<Path>): set<(Path, nat)> {
    set p, i: nat | p in ps && i < SizeIn(files, p) :: (p, i)
  }

  lemma {:induction false} CellsGrow(files: Files, ps: set<Path>, p: Path)
    requires p !in ps
    ensures |CellsOf(files, ps + {p})| == |CellsOf(files, ps)| + SizeIn(files, p)
  {
    RowSize(p, SizeIn(files, p));
    assert CellsOf(files, ps + {p}) == CellsOf(files, ps) + Row(p, SizeIn(files, p));
    assert CellsOf(files, ps) !! Row(p, SizeIn(files, p));
  }

  lemma {:induction false} TotalSizeCounts(files: Files, ps: seq<Path>)
    requires Distinct(ps)
    ensures TotalSize(files, ps) == |CellsOf(files, ToSet(ps))|
  {
    if ps == [] {
      assert CellsOf(files, ToSet(ps)) == {};
    } else {
      var n := |ps| - 1;
      var a, p := ps[..n], ps[n];
      assert forall i {:trigger a[..i]} :: 0 <= i < n ==> a[..i] == ps[..i];
      TotalSizeCounts(files, a);
      assert ps == a + [p] && p !in ps[..n];
      assert ToSet(ps) == ToSet(a) + {p};
      CellsGrow(files, ToSet(a), p);
    }
  }

  /** The order in which files travel does not change the total. */
  lemma {:induction false} TotalSizeOrder(files: Files, a: seq<Path>, b: seq<Path>)
    requires Distinct(a) && Distinct(b) && forall p :: p in a <==> p in b
    ensures TotalSize(files, a) == TotalSize(files, b)
  {
    TotalSizeCounts(files, a);
    TotalSizeCounts(files, b);
    assert ToSet(a) == ToSet(b);
  }

  // ----- the report

  datatype SyncResult = SyncResult(
    pulled: seq<Path>,
    pushed: seq<Path>,
    conflicts: seq<Path>,
    pulledBytes: nat,
    pushedBytes: nat)

  function Report(x: Peer): SyncResult {
    SyncResult(x.rx.received, x.tx.pushed, x.log.conflicts, x.log.pulledBytes, x.tx.pushedBytes)
  }

  /** The byte counters are the sizes of the listed files, and the conflicts are the files backed up. */
  ghost predicate Accurate(x: Peer, v: View) {
    && x.tx.pushedBytes == TotalSize(v.mine, x.tx.pushed)
    && x.log.pulledBytes == TotalSize(v.theirs, x.rx.received)
    && (forall p :: p in x.log.conflicts <==> p in x.log.backups)
  }

  lemma {:induction false} SendKeepsAccurate(x: Peer, v: View)
    requires Half(v.mine, v.push) && Sending(x, v) && CanSend(x) && Accurate(x, v)
    ensures Accurate(Send(x).0, v)
  {
    if x.tx.todo != [] {
      assert x.tx.todo[0] in x.tx.todo;
      TotalSizeAppend(v.mine, x.tx.pushed, x.tx.todo[0]);
    }
  }

  lemma {:induction false} ReceiveKeepsAccurate(hash: Bytes -> Digest, x: Peer, v: View, m: Message, ts: U64)
    requires PeerInv(hash, x, v) && GoodView(v) && CanReceive(x) && |Unread(x, v)| > 0 && m == Unread(x, v)[0]
    requires FreshBackup(hash, Names(v), x, m, ts) && Accurate(x, v)
    ensures Accurate(Receive(hash, x, m, ts).0, v)
  {
    if Completes(hash, x, m).Some? {
      AboutToCommit(hash, x, v, m, ts);
      CommitKeepsAccurate(hash, x.(rx := x.rx.(buffers := EMPTY)), v, m.chunk.path, ts);
    } else {
      ReceiveIsSameSending(hash, x, m, ts);
      NoCommitSameFiles(hash, x, m, ts);
    }
  }

  lemma {:induction false} CommitKeepsAccurate(hash: Bytes -> Digest, x: Peer, v: View, p: Path, ts: U64)
    requires p in v.theirs && Accurate(x, v)
    ensures Accurate(Commit(hash, x, p, v.theirs[p], ts), v)
  {
    TotalSizeAppend(v.theirs, x.rx.received, p);
  }

  ghost predicate AccurateSystem(hash: Bytes -> Digest, d: Deal, s: System) {
    SystemInv(hash, d, s) && Accurate(s.client, ViewOf(d, Client)) && Accurate(s.server, ViewOf(d, Server))
  }

  lemma {:induction false} StepKeepsAccurate(hash: Bytes -> Digest, d: Deal, s: System, a: Action)
    requires Sound(d) && AccurateSystem(hash, d, s) && Enabled(hash, Universe(d), s, a)
    ensures AccurateSystem(hash, d, Apply(hash, Universe(d), s, a))
  {
    ActionKeepsInv(hash, d, s, a);
    SideStaysAccurate(hash, d, s, a);
  }

  lemma {:induction false} SideStaysAccurate(hash: Bytes -> Digest, d: Deal, s: System, a: Action)
    requires Sound(d) && SystemInv(hash, d, s) && Enabled(hash, Universe(d), s, a)
    requires Accurate(Side(s, a.role), ViewOf(d, a.role))
    ensures Accurate(Side(Apply(hash, Universe(d), s, a), a.role), ViewOf(d, a.role))
  {
    var r := a.role;
    SoundViews(d, r);
    PairOf(hash, d, s, r);
    if a.Sends? {
      SendKeepsAccurate(Side(s, r), ViewOf(d, r));
    } else if a.Receives? {
      ReceiverStaysAccurate(hash, d, s, r, a.ts);
    }
  }

  lemma {:induction false} ReceiverStaysAccurate(hash: Bytes -> Digest, d: Deal, s: System, r: Role, ts: U64)
    requires Sound(d) && SystemInv(hash, d, s) && Enabled(hash, Universe(d), s, Receives(r, ts))
    requires Accurate(Side(s, r), ViewOf(d, r))
    ensures Accurate(Receive(hash, Side(s, r), Inbox(s, r)[0], ts).0, ViewOf(d, r))
  {
    SoundViews(d, r);
    PairOf(hash, d, s, r);
    NextIsExpected(Side(s, r), Side(s, Other(r)), Inbox(s, r), ViewOf(d, r), ViewOf(d, Other(r)));
    ReceiveKeepsAccurate(hash, Side(s, r), ViewOf(d, r), Inbox(s, r)[0], ts);
  }

  lemma {:induction false} RunIsAccurate(hash: Bytes -> Digest, d: Deal, states: seq<System>, actions: seq<Action>,
                                         i: nat)
    requires Sound(d) && Run(hash, Universe(d), states, actions) && Start(hash, d, states[0]) && i < |states|
    ensures AccurateSystem(hash, d, states[i])
  {
    StartAccurate(hash, d, states[0]);
    StepsKeepAccurate(hash, d);
    InvariantAlongRun(Next(hash, Universe(d)), s => AccurateSystem(hash, d, s), states, actions, i);
  }

  lemma {:induction false} StartAccurate(hash: Bytes -> Digest, d: Deal, s: System)
    requires Sound(d) && Start(hash, d, s)
    ensures AccurateSystem(hash, d, s)
  {
    StartInv(hash, d, s);
  }

  lemma {:induction false} StepsKeepAccurate(hash: Bytes -> Digest, d: Deal)
    requires Sound(d)
    ensures Preserves(Next(hash, Universe(d)), s => AccurateSystem(hash, d, s))
  {
    forall s, a, s' | AccurateSystem(hash, d, s) && Next(hash, Universe(d))(s, a, s')
      ensures AccurateSystem(hash, d, s')
    {
      StepKeepsAccurate(hash, d, s, a);
    }
  }

  // ----- dry run

  function SumSizes(es: seq<IndexEntry>): nat {
    if es == [] then 0 else SumSizes(es[..|es| - 1]) + es[|es| - 1].size
  }

  /** What a dry run returns: the plan, with sizes taken from the indexes. */
  function DryRun(k: Planned): SyncResult {
    SyncResult(EntryPaths(ToPull(k)), EntryPaths(ToPush(k)),
               OpPathSeq(k.clientPlan.conflicts),
               SumSizes(ToPull(k)), SumSizes(ToPush(k)))
  }

  lemma {:induction false} SumSizesIsTotal(hash: Bytes -> Digest, all: seq<IndexEntry>, files: Files,
                                           es: seq<IndexEntry>)
    requires Describes(hash, all, files) && forall e :: e in es ==> e in all
    ensures SumSizes(es) == TotalSize(files, EntryPaths(es))
  {
    if es != [] {
      var n := |es| - 1;
      SumSizesIsTotal(hash, all, files, es[..n]);
      assert EntryPaths(es)[..n] == EntryPaths(es[..n]);
      assert es[n] in es;
    }
  }

  lemma {:induction false} DryRunTotals(hash: Bytes -> Digest, k: Planned)
    requires WellPlanned(hash, k)
    ensures DryRun(k).pushedBytes == TotalSize(k.client, DealOf(k).clientPush)
    ensures DryRun(k).pulledBytes == TotalSize(k.server, DealOf(k).serverPush)
  {
    ClientPushes(hash, k);
    ClientExpects(hash, k);
    ServerPushes(hash, k);
    SumSizesIsTotal(hash, k.clientIndex.entries, k.client, ToPush(k));
    SumSizesIsTotal(hash, k.serverIndex.entries, k.server, ToPull(k));
    TotalSizeOrder(k.server, EntryPaths(ToPull(k)), DealOf(k).serverPush);
  }

  lemma {:induction false} DryRunConflicts(hash: Bytes -> Digest, k: Planned, p: Path)
    requires WellPlanned(hash, k)
    ensures p in DryRun(k).conflicts ==> ServerWins(k, p) && p in k.client
  {
    if p in DryRun(k).conflicts {
      var i :| 0 <= i < |k.clientPlan.conflicts| && DryRun(k).conflicts[i] == p;
      assert k.clientPlan.conflicts[i] in k.clientPlan.conflicts;
      SnapshotOf(hash, k.clientIndex, k.client);
      SnapshotOf(hash, k.serverIndex, k.server);
      Verdicts(hash, k, p);
      assert Buried([]) == {};
    }
  }

  /** The conflicts of a dry run are exactly the paths that differ and on which neither version dominates. */
  lemma {:induction false} DryRunConflictsIff(hash: Bytes -> Digest, k: Planned, p: Path)
    requires WellPlanned(hash, k)
    ensures p in DryRun(k).conflicts <==>
      && p in k.client && p in k.server && k.client[p] != k.server[p]
      && !Above(Announced(k.clientIndex, p), Announced(k.serverIndex, p))
      && !Above(Announced(k.serverIndex, p), Announced(k.clientIndex, p))
  {
    var c, s := IndexToSnapshot(k.clientIndex), IndexToSnapshot(k.serverIndex);
    ListedIff(k.clientPlan.conflicts, Conflicts(c, s, [], [], PathsOf(c) + PathsOf(s)), p);
    WantedPaths(c, s, p);
    ClashIff(hash, k, p);
  }

  lemma {:induction false} ListedIff(ops: seq<SyncOperation>, wanted: set<SyncOperation>, p: Path)
    requires Lists(ops, wanted)
    ensures p in OpPathSeq(ops) <==> exists op :: op in wanted && op.path == p
  {
    if p in OpPathSeq(ops) {
      var i :| 0 <= i < |ops| && OpPathSeq(ops)[i] == p;
      assert ops[i] in ops;
    }
    if op :| op in wanted && op.path == p {
      var i :| 0 <= i < |ops| && ops[i] == op;
      assert OpPathSeq(ops)[i] == p;
    }
  }

  lemma {:induction false} ClashIff(hash: Bytes -> Digest, k: Planned, p: Path)
    requires WellPlanned(hash, k)
    ensures Clash(IndexToSnapshot(k.clientIndex), IndexToSnapshot(k.serverIndex), [], [], p) <==>
      && p in k.client && p in k.server && k.client[p] != k.server[p]
      && !Above(Announced(k.clientIndex, p), Announced(k.serverIndex, p))
      && !Above(Announced(k.serverIndex, p), Announced(k.clientIndex, p))
  {
    var c, s := IndexToSnapshot(k.clientIndex), IndexToSnapshot(k.serverIndex);
    SnapshotOf(hash, k.clientIndex, k.client);
    SnapshotOf(hash, k.serverIndex, k.server);
    if p in k.client && p in k.server {
      TwoSided(c, s, [], [], p);
    } else if p in k.client {
      OneSided(c, s, [], [], p);
    } else if p in k.server {
      OneSided(s, c, [], [], p);
    }
  }

  /**
   What a session reports is what the dry run said: the same files in each direction and the same byte
   totals. Every conflict of the dry run is reported, and reported are exactly the pulled files that
   replaced a copy of the client's.
   */
  ghost predicate Predicted(k: Planned, actual: SyncResult) {
    var dry := DryRun(k);
    && actual.pushed == dry.pushed
    && (forall p :: p in actual.pulled <==> p in dry.pulled) && |actual.pulled| == |dry.pulled|
    && actual.pushedBytes == dry.pushedBytes && actual.pulledBytes == dry.pulledBytes
    && (forall p :: p in dry.conflicts ==> p in actual.conflicts)
    && (forall p :: p in actual.conflicts <==> p in dry.pulled && p in k.client)
  }

  /** A client that has pushed everything and received everything reports what the dry run said. */
  lemma {:induction false} AllReceivedPredicted(hash: Bytes -> Digest, k: Planned, s: System)
    requires WellPlanned(hash, k) && Sound(DealOf(k)) && AccurateSystem(hash, DealOf(k), s)
    requires !s.client.failed && s.client.tx.sentinelSent && s.client.rx.received == DealOf(k).serverPush
    ensures Predicted(k, Report(s.client))
  {
    PlansAgree(hash, k);
    ReportedTransfers(hash, k, s);
    forall p ensures p in s.client.log.conflicts <==> ServerWins(k, p) && p in k.client
             ensures p in DryRun(k).conflicts ==> ServerWins(k, p) && p in k.client
    {
      DryRunConflicts(hash, k, p);
      ReportedConflict(hash, k, s, p);
    }
  }

  /** A dry run predicts every session from the same state that runs to the client's regular exit. */
  lemma {:induction false} DryRunPredicts(hash: Bytes -> Digest, k: Planned, states: seq<System>,
                                          actions: seq<Action>, i: nat)
    requires WellPlanned(hash, k) && Run(hash, Universe(DealOf(k)), states, actions) &&
      Start(hash, DealOf(k), states[0])
    requires i < |states| && Done(states[i].client)
    ensures Predicted(k, Report(states[i].client))
  {
    PlansAgree(hash, k);
    RunIsAccurate(hash, DealOf(k), states, actions, i);
    ClientLeavesWhen(hash, DealOf(k), states[i]);
    AllReceivedPredicted(hash, k, states[i]);
  }

  // ----- exactly when a dry run is right about a session without aborts

  ghost predicate ClientAlive(hash: Bytes -> Digest, d: Deal, s: System) {
    SystemInv(hash, d, s) && !s.client.failed
  }

  lemma {:induction false} ClientStaysAlive(hash: Bytes -> Digest, d: Deal)
    requires Sound(d) && forall p :: p in d.serverPush ==> Fits(p, d.server[p])
    ensures Preserves(Regular(hash, Universe(d)), s => ClientAlive(hash, d, s))
  {
    forall s, a, s' | ClientAlive(hash, d, s) && Regular(hash, Universe(d))(s, a, s') ensures ClientAlive(hash, d, s') {
      ActionKeepsInv(hash, d, s, a);
      if a == Sends(Client) {
        SendSameRole(s.client);
      } else if a.role.Client? {
        FittingReceiveDoesNotFail(hash, d, s, Client, a.ts);
      }
    }
  }

  /** If all that the server pushes fits, the client of a session without aborts never fails. */
  lemma {:induction false} ClientNeverFails(hash: Bytes -> Digest, d: Deal, states: seq<System>, actions: seq<Action>)
    requires Sound(d) && Run(hash, Universe(d), states, actions) && Start(hash, d, states[0]) && NoAborts(actions)
    requires forall p :: p in d.serverPush ==> Fits(p, d.server[p])
    ensures ClientAlive(hash, d, states[|actions|])
  {
    StartInv(hash, d, states[0]);
    ClientStaysAlive(hash, d);
    RegularRun(hash, d, states, actions);
    InvariantAlongRun(Regular(hash, Universe(d)), s => ClientAlive(hash, d, s), states, actions, |actions|);
  }

  /** A side that has nothing left to write has written its sentinel. */
  lemma {:induction false} AllWritten(hash: Bytes -> Digest, x: Peer, v: View)
    requires TidySide(hash, x, v) && Sending(x, v) && Half(v.mine, v.push) && !CanSend(x)
    ensures x.tx.sentinelSent
  {
  }

  /** At rest a client that has not failed has received everything, whatever became of its own pushes. */
  lemma {:induction false} RestingClient(hash: Bytes -> Digest, d: Deal, s: System)
    requires Sound(d) && Tidy(hash, d, s) && !s.client.failed && !CanAct(s)
    ensures s.client.tx.sentinelSent && s.client.rx.received == d.serverPush
  {
    var v, w := ViewOf(d, Client), ViewOf(d, Server);
    SoundViews(d, Client);
    SoundViews(d, Server);
    AllWritten(hash, s.client, v);
    AllWritten(hash, s.server, w);
    if Done(s.client) {
      ClientLeavesWhen(hash, d, s);
    } else {
      assert s.toClient == [];
      Starved(s.client, s.server, v, w);
      assert d.serverPush[..|d.serverPush|] == d.serverPush;
    }
  }

  /** What was reported as pulled fitted. */
  lemma {:induction false} PulledFits(hash: Bytes -> Digest, k: Planned, s: System, p: Path)
    requires WellPlanned(hash, k) && Tidy(hash, DealOf(k), s) && Predicted(k, Report(s.client)) && ServerWins(k, p)
    ensures Fits(p, k.server[p])
  {
    ClientExpects(hash, k);
    assert p in DryRun(k).pulled && p in s.client.rx.received;
  }

  /**
   For a session without aborts that has come to rest, the client's report is what the dry run said
   if and only if every file the server wins fits the client's limits, whether or not the client's own
   pushes fit the server's.
   */
  lemma {:induction false} DryRunPredictsIff(hash: Bytes -> Digest, k: Planned, s: System)
    requires FaultFree(hash, k, s)
    ensures Predicted(k, Report(s.client)) <==> forall p :: ServerWins(k, p) ==> Fits(p, k.server[p])
  {
    FaultFreeIsTidy(hash, k, s);
    if forall p :: ServerWins(k, p) ==> Fits(p, k.server[p]) {
      RestingReport(hash, k, s);
    }
    if Predicted(k, Report(s.client)) {
      forall p | ServerWins(k, p) ensures Fits(p, k.server[p]) {
        PulledFits(hash, k, s, p);
      }
    }
  }

  lemma {:induction false} RestingReport(hash: Bytes -> Digest, k: Planned, s: System)
    requires FaultFree(hash, k, s) && Sound(DealOf(k)) && Tidy(hash, DealOf(k), s)
    requires forall p :: ServerWins(k, p) ==> Fits(p, k.server[p])
    ensures Predicted(k, Report(s.client))
  {
    var d := DealOf(k);
    PlansAgree(hash, k);
    var states: seq<System>, actions: seq<Action> :|
      Run(hash, Universe(d), states, actions) && Start(hash, d, states[0]) && s == states[|actions|] &&
        NoAborts(actions);
    ClientNeverFails(hash, d, states, actions);
    RunIsAccurate(hash, d, states, actions, |actions|);
    RestingClient(hash, d, s);
    AllReceivedPredicted(hash, k, s);
  }

  lemma {:induction false} ReportedTransfers(hash: Bytes -> Digest, k: Planned, s: System)
    requires WellPlanned(hash, k) && Sound(DealOf(k)) && AccurateSystem(hash, DealOf(k), s)
    requires s.client.tx.sentinelSent && s.client.rx.received == DealOf(k).serverPush
    ensures var dry, actual := DryRun(k), Report(s.client);
      && actual.pushed == dry.pushed && actual.pulled == DealOf(k).serverPush
      && actual.pushedBytes == dry.pushedBytes && actual.pulledBytes == dry.pulledBytes
  {
    DryRunTotals(hash, k);
    AllPushed(s.client, ViewOf(DealOf(k), Client));
    assert Accurate(s.client, ViewOf(DealOf(k), Client));
  }

  lemma {:induction false} AllPushed(x: Peer, v: View)
    requires Sending(x, v) && x.tx.sentinelSent
    ensures x.tx.pushed == v.push
  {
  }

  lemma {:induction false} ReportedConflict(hash: Bytes -> Digest, k: Planned, s: System, p: Path)
    requires WellPlanned(hash, k) && Sound(DealOf(k)) && AccurateSystem(hash, DealOf(k), s) && !s.client.failed
    requires s.client.rx.received == DealOf(k).serverPush
    requires p in DealOf(k).serverPush <==> ServerWins(k, p)
    ensures p in s.client.log.conflicts <==> ServerWins(k, p) && p in k.client
  {
  }
}
