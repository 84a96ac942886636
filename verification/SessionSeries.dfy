/**
 Sessions one after the other: what has to be assumed of the first pair of folders only, when the
 plans become empty and stay empty, and which files can never leave their side.
 */
module SessionSeries {
  import opened Basics
  import opened Runs
  import opened Chunks
  import opened Reconciler
  import opened Session
  import opened SessionStreams
  import opened SessionFiles
  import opened SessionRuns
  import opened SessionTheorems
  import opened SessionPlan
  import opened SessionRemains
  import opened SessionOutcome

  /** Some run of a session planned as `k` says ends in `s`, cut short or not. */
  ghost predicate Ends(hash: Bytes -> Digest, k: Planned, s: System) {
    exists states: seq<System>, actions: seq<Action> ::
      Run(hash, Universe(DealOf(k)), states, actions) && Start(hash, DealOf(k), states[0]) && s == states[|actions|]
  }

  /** Such a run in which no side was stopped between writing a file aside and renaming it. */
  ghost predicate EndsClean(hash: Bytes -> Digest, k: Planned, s: System) {
    exists states: seq<System>, actions: seq<Action> ::
      && Run(hash, Universe(DealOf(k)), states, actions) && Start(hash, DealOf(k), states[0]) && s == states[|actions|]
      && NoTempStops(actions)
  }

  /** Such a run without aborts, at whose end no side can act. */
  ghost predicate Rests(hash: Bytes -> Digest, k: Planned, s: System) {
    !CanAct(s) &&
    exists states: seq<System>, actions: seq<Action> ::
      && Run(hash, Universe(DealOf(k)), states, actions) && Start(hash, DealOf(k), states[0]) && s == states[|actions|]
      && NoAborts(actions)
  }

  ghost predicate FaultFree(hash: Bytes -> Digest, k: Planned, s: System) {
    WellPlanned(hash, k) && Rests(hash, k, s)
  }

  /** A session from the folders another session left behind. */
  ghost predicate Continues(s: System, k: Planned) {
    k.client == s.client.files && k.server == s.server.files
  }

  ghost predicate EmptyPlans(k: Planned) {
    k.clientPlan == SyncPlan([], [], [], []) && k.serverPlan == SyncPlan([], [], [], [])
  }

  // ----- without aborts the folders stay tidy, even when a chunk is rejected

  /** The folder invariant holds, failed or not, and a side has failed only after it has pushed everything. */
  ghost predicate TidySide(hash: Bytes -> Digest, x: Peer, v: View) {
    FilesInv(hash, x, v) && (x.failed ==> x.tx.sentinelSent)
  }

  ghost predicate Tidy(hash: Bytes -> Digest, d: Deal, s: System) {
    && SystemInv(hash, d, s)
    && TidySide(hash, s.client, ViewOf(d, Client)) && TidySide(hash, s.server, ViewOf(d, Server))
  }

  lemma {:induction false} SideStaysTidy(hash: Bytes -> Digest, d: Deal, s: System, a: Action)
    requires Sound(d) && SystemInv(hash, d, s) && Enabled(hash, Universe(d), s, a) && (a.Sends? || a.Receives?)
    ensures TidySide(hash, Side(Apply(hash, Universe(d), s, a), a.role), ViewOf(d, a.role))
  {
    var r := a.role;
    var x, v := Side(s, r), ViewOf(d, r);
    SoundViews(d, r);
    PairOf(hash, d, s, r);
    if a.Sends? {
      SendSameRole(x);
      SameFiles(hash, x, Send(x).0, v);
    } else {
      ReceiverStaysTidy(hash, d, s, r, a.ts);
      ReceiveIsSameSending(hash, x, Inbox(s, r)[0], a.ts);
    }
  }

  lemma {:induction false} StepKeepsTidy(hash: Bytes -> Digest, d: Deal, s: System, a: Action)
    requires Sound(d) && Tidy(hash, d, s) && Enabled(hash, Universe(d), s, a) && (a.Sends? || a.Receives?)
    ensures Tidy(hash, d, Apply(hash, Universe(d), s, a))
  {
    ActionKeepsInv(hash, d, s, a);
    SideStaysTidy(hash, d, s, a);
  }

  /** A step that is not an abort. */
  ghost function Regular(hash: Bytes -> Digest, universe: set<Path>): (System, Action, System) -> bool {
    (s: System, a: Action, s': System) =>
      (a.Sends? || a.Receives?) && Enabled(hash, universe, s, a) && s' == Apply(hash, universe, s, a)
  }

  lemma {:induction false} RegularStepsKeepTidy(hash: Bytes -> Digest, d: Deal)
    requires Sound(d)
    ensures Preserves(Regular(hash, Universe(d)), s => Tidy(hash, d, s))
  {
    forall s, a, s' | Tidy(hash, d, s) && Regular(hash, Universe(d))(s, a, s') ensures Tidy(hash, d, s') {
      StepKeepsTidy(hash, d, s, a);
    }
  }

  lemma {:induction false} RegularRun(hash: Bytes -> Digest, d: Deal, states: seq<System>, actions: seq<Action>)
    requires Run(hash, Universe(d), states, actions) && NoAborts(actions)
    ensures IsRun(Regular(hash, Universe(d)), states, actions)
  {
    assert forall i :: 0 <= i < |actions| ==> Next(hash, Universe(d))(states[i], actions[i], states[i + 1]);
  }

  lemma {:induction false} StartIsTidy(hash: Bytes -> Digest, d: Deal, s: System)
    requires Sound(d) && Start(hash, d, s)
    ensures Tidy(hash, d, s)
  {
    StartInv(hash, d, s);
  }

  lemma {:induction false} FaultFreeIsTidy(hash: Bytes -> Digest, k: Planned, s: System)
    requires FaultFree(hash, k, s)
    ensures Sound(DealOf(k)) && Tidy(hash, DealOf(k), s)
  {
    var d := DealOf(k);
    PlansAgree(hash, k);
    var states: seq<System>, actions: seq<Action> :|
      Run(hash, Universe(d), states, actions) && Start(hash, d, states[0]) && NoAborts(actions) &&
        s == states[|actions|];
    StartIsTidy(hash, d, states[0]);
    RegularStepsKeepTidy(hash, d);
    RegularRun(hash, d, states, actions);
    InvariantAlongRun(Regular(hash, Universe(d)), t => Tidy(hash, d, t), states, actions, |actions|);
  }

  // ----- what a session without aborts does to the folders, completed or not

  /** `p` is on the side of `r` only and is too large, or its name too long, for the other side. */
  ghost predicate Stuck(client: Files, server: Files, r: Role, p: Path) {
    var mine, theirs := if r.Client? then client else server, if r.Client? then server else client;
    p in mine && p !in theirs && !Fits(p, mine[p])
  }

  /**
   A file that only one side has and that the other side's limits refuse stays where it is, unchanged,
   and only there, through every session, wherever the session is cut short.
   */
  lemma {:induction false} StuckStays(hash: Bytes -> Digest, k: Planned, s: System, r: Role, p: Path)
    requires WellPlanned(hash, k) && Ends(hash, k, s) && Stuck(k.client, k.server, r, p)
    ensures Stuck(s.client.files, s.server.files, r, p)
  {
    var d := DealOf(k);
    PlansAgree(hash, k);
    var states: seq<System>, actions: seq<Action> :|
      Run(hash, Universe(d), states, actions) && Start(hash, d, states[0]) && s == states[|actions|];
    RunLeavesRemnants(hash, d, states, actions, |actions|, true);
    RemnantsKeepStuck(d, s, r, p);
  }

  lemma {:induction false} RemnantsKeepStuck(d: Deal, s: System, r: Role, p: Path)
    requires Remnants(d, s, true) && Stuck(d.client, d.server, r, p)
    ensures Stuck(s.client.files, s.server.files, r, p)
  {
  }

  lemma {:induction false} StuckPlans(hash: Bytes -> Digest, k: Planned, r: Role, p: Path)
    requires WellPlanned(hash, k) && Stuck(k.client, k.server, r, p)
    ensures !EmptyPlans(k)
  {
    PlansAgree(hash, k);
    if r.Client? {
      assert ClientWins(k, p) && p in DealOf(k).clientPush;
    } else {
      assert ServerWins(k, p) && p in DealOf(k).serverPush;
    }
  }

  /** A side to which nothing is pushed stays as it was. */
  lemma {:induction false} NothingReceived(hash: Bytes -> Digest, x: Peer, v: View)
    requires FilesInv(hash, x, v) && Receiving(x, v) && v.theirPush == []
    ensures x.files == v.mine
  {
    assert x.rx.received == [];
    assert forall p :: p !in x.log.backups;
    assert forall q :: !IsBackup(hash, x, v, q);
    assert forall q :: q in x.files <==> q in v.mine;
  }

  lemma {:induction false} NothingToPush(k: Planned)
    requires EmptyPlans(k)
    ensures DealOf(k).clientPush == [] && DealOf(k).serverPush == []
  {
  }

  /** Between equal folders a session changes nothing. */
  lemma {:induction false} IdleSession(hash: Bytes -> Digest, k: Planned, s: System)
    requires FaultFree(hash, k, s) && k.client == k.server
    ensures s.client.files == k.client && s.server.files == k.server
  {
    FaultFreeIsTidy(hash, k, s);
    EqualFoldersPlanNothing(hash, k);
    NothingToPush(k);
    NothingReceived(hash, s.client, ViewOf(DealOf(k), Client));
    NothingReceived(hash, s.server, ViewOf(DealOf(k), Server));
  }

  // ----- what is assumed of the folders carries over

  ghost function AllNames(k: Planned): set<Path> {
    k.client.Keys + k.server.Keys
  }

  lemma {:induction false} NextIsWellPlanned(hash: Bytes -> Digest, k: Planned, s: System, next: Planned)
    requires WellPlanned(hash, k) && PlainNames(AllNames(k)) && Sound(DealOf(k)) && Remnants(DealOf(k), s, false)
    requires Continues(s, next) && Reconciled(hash, next)
    ensures WellPlanned(hash, next) && PlainNames(AllNames(next))
  {
    PlainCarriesOver(DealOf(k), s);
    TellsApartCarriesOver(hash, DealOf(k), s);
    PlainIsOrdinary(AllNames(next));
  }

  lemma {:induction false} CompletedLeavesRemnants(hash: Bytes -> Digest, k: Planned, s: System)
    requires Completed(hash, k, s)
    ensures Sound(DealOf(k)) && Remnants(DealOf(k), s, false)
  {
    var d := DealOf(k);
    CompletedInv(hash, k, s);
    SoundViews(d, Client);
    SoundViews(d, Server);
    ReceivedArePushed(s.client, ViewOf(d, Client));
    ReceivedArePushed(s.server, ViewOf(d, Server));
    TidyIsRemnant(hash, s.client, ViewOf(d, Client), false);
    TidyIsRemnant(hash, s.server, ViewOf(d, Server), false);
  }

  lemma {:induction false} SecondIsWellPlanned(hash: Bytes -> Digest, first: Planned, s1: System, second: Planned)
    requires Completed(hash, first, s1) && PlainNames(AllNames(first))
    requires Continues(s1, second) && Reconciled(hash, second)
    ensures WellPlanned(hash, second)
  {
    CompletedLeavesRemnants(hash, first, s1);
    NextIsWellPlanned(hash, first, s1, second);
  }

  // ----- the second session

  /** Every backup that a session has left on a side passes the limits of the other side. */
  ghost predicate BackupsFit(hash: Bytes -> Digest, x: Peer, v: View) {
    forall q :: IsBackup(hash, x, v, q) && q in x.files ==> Fits(q, x.files[q])
  }

  ghost predicate LeftoversFit(hash: Bytes -> Digest, k: Planned, s: System) {
    BackupsFit(hash, s.client, ViewOf(DealOf(k), Client)) && BackupsFit(hash, s.server, ViewOf(DealOf(k), Server))
  }

  /** The plan of the second session moves exactly the backups of the first. */
  lemma {:induction false} SecondMoves(hash: Bytes -> Digest, first: Planned, s1: System, second: Planned, p: Path)
    requires Completed(hash, first, s1) && Continues(s1, second)
    ensures ClientWins(second, p) <==> IsBackup(hash, s1.client, ViewOf(DealOf(first), Client), p)
    ensures ServerWins(second, p) <==> IsBackup(hash, s1.server, ViewOf(DealOf(first), Server), p)
  {
    AfterCompleted(hash, first, s1);
  }

  lemma {:induction false} CompletedIffAllFit(hash: Bytes -> Digest, k: Planned, s: System)
    requires FaultFree(hash, k, s)
    ensures Completed(hash, k, s) <==> forall p :: TravelsFitAt(k, p)
  {
    var states: seq<System>, actions: seq<Action> :|
      Run(hash, Universe(DealOf(k)), states, actions) && Start(hash, DealOf(k), states[0]) && NoAborts(actions) &&
      s == states[|actions|];
    FaultFreeRunConverges(hash, k, states, actions);
  }

  /** A second session without aborts completes exactly when every backup of the first fits. */
  lemma {:induction false} SecondCompletesIff(hash: Bytes -> Digest, first: Planned, s1: System, second: Planned,
                                              s2: System)
    requires Completed(hash, first, s1) && PlainNames(AllNames(first))
    requires Continues(s1, second) && Reconciled(hash, second) && Rests(hash, second, s2)
    ensures Completed(hash, second, s2) <==> LeftoversFit(hash, first, s1)
  {
    SecondIsWellPlanned(hash, first, s1, second);
    CompletedIffAllFit(hash, second, s2);
    forall p ensures TravelsFitAt(second, p) <==> BackupFitsAt(hash, first, s1, p) {
      SecondMoves(hash, first, s1, second, p);
    }
    LeftoversFitAt(hash, first, s1);
    assert (forall p :: TravelsFitAt(second, p)) <==> (forall p :: BackupFitsAt(hash, first, s1, p));
  }

  ghost predicate BackupFitsAt(hash: Bytes -> Digest, k: Planned, s: System, p: Path) {
    && (IsBackup(hash, s.client, ViewOf(DealOf(k), Client), p) && p in s.client.files ==> Fits(p, s.client.files[p]))
    && (IsBackup(hash, s.server, ViewOf(DealOf(k), Server), p) && p in s.server.files ==> Fits(p, s.server.files[p]))
  }

  lemma {:induction false} LeftoversFitAt(hash: Bytes -> Digest, k: Planned, s: System)
    ensures LeftoversFit(hash, k, s) <==> forall p :: BackupFitsAt(hash, k, s, p)
  {
    var c, v := ViewOf(DealOf(k), Client), ViewOf(DealOf(k), Server);
    if LeftoversFit(hash, k, s) {
      forall p ensures BackupFitsAt(hash, k, s, p) {
      }
    }
    if forall p :: BackupFitsAt(hash, k, s, p) {
      forall q | IsBackup(hash, s.client, c, q) && q in s.client.files ensures Fits(q, s.client.files[q]) {
        assert BackupFitsAt(hash, k, s, q);
      }
      forall q | IsBackup(hash, s.server, v, q) && q in s.server.files ensures Fits(q, s.server.files[q]) {
        assert BackupFitsAt(hash, k, s, q);
      }
    }
  }

  /**
   After a completed session whose backups fit, a second session without aborts copies exactly those
   backups, makes none of its own and leaves both folders equal.
   */
  lemma {:induction false} SecondSession(hash: Bytes -> Digest, first: Planned, s1: System, second: Planned, s2: System)
    requires Completed(hash, first, s1) && PlainNames(AllNames(first)) && LeftoversFit(hash, first, s1)
    requires Continues(s1, second) && Reconciled(hash, second) && Rests(hash, second, s2)
    ensures forall p :: p in DealOf(second).clientPush <==> IsBackup(hash, s1.client, ViewOf(DealOf(first), Client), p)
    ensures forall p :: p in DealOf(second).serverPush <==> IsBackup(hash, s1.server, ViewOf(DealOf(first), Server), p)
    ensures s2.client.log.backups == map[] && s2.server.log.backups == map[]
    ensures s2.client.files == s2.server.files == s1.client.files + s1.server.files
  {
    SecondCompletesIff(hash, first, s1, second, s2);
    AfterCompleted(hash, first, s1);
    MergingCompleted(hash, second, s2);
  }

  // ----- any number of sessions

  datatype Round = Round(plan: Planned, end: System)

  /** What is assumed of the first pair of folders, and of no other. */
  ghost predicate Beginning(hash: Bytes -> Digest, k: Planned) {
    TellsApart(hash, k.client, k.server) && PlainNames(AllNames(k))
  }

  ghost predicate Follows(hash: Bytes -> Digest, before: Round, after: Round) {
    Continues(before.end, after.plan) && EndsClean(hash, before.plan, before.end)
  }

  /**
   Sessions that end anywhere, each planned from the folders the one before left behind. Only the last
   may have been stopped between writing a file aside and renaming it.
   */
  ghost predicate AnySeries(hash: Bytes -> Digest, rounds: seq<Round>) {
    && |rounds| > 0 && Beginning(hash, rounds[0].plan)
    && (forall i :: 0 <= i < |rounds| ==>
          Reconciled(hash, rounds[i].plan) && Ends(hash, rounds[i].plan, rounds[i].end))
    && (forall i :: 0 < i < |rounds| ==> Follows(hash, rounds[i - 1], rounds[i]))
  }

  /** Sessions without aborts, each planned from the folders the one before left behind. */
  ghost predicate Series(hash: Bytes -> Digest, rounds: seq<Round>) {
    && |rounds| > 0 && Beginning(hash, rounds[0].plan)
    && (forall i :: 0 <= i < |rounds| ==>
          Reconciled(hash, rounds[i].plan) && Rests(hash, rounds[i].plan, rounds[i].end))
    && (forall i :: 0 < i < |rounds| ==> Continues(rounds[i - 1].end, rounds[i].plan))
  }

  lemma {:induction false} RestsIsClean(hash: Bytes -> Digest, k: Planned, s: System)
    requires Rests(hash, k, s)
    ensures Ends(hash, k, s) && EndsClean(hash, k, s)
  {
    var states: seq<System>, actions: seq<Action> :|
      && Run(hash, Universe(DealOf(k)), states, actions) && Start(hash, DealOf(k), states[0]) && s == states[|actions|]
      && NoAborts(actions);
    assert NoTempStops(actions);
  }

  lemma {:induction false} SeriesIsAny(hash: Bytes -> Digest, rounds: seq<Round>)
    requires Series(hash, rounds)
    ensures AnySeries(hash, rounds)
  {
    forall i | 0 <= i < |rounds|
      ensures Ends(hash, rounds[i].plan, rounds[i].end) && EndsClean(hash, rounds[i].plan, rounds[i].end)
    {
      RestsIsClean(hash, rounds[i].plan, rounds[i].end);
    }
    assert forall i :: 0 < i < |rounds| ==> Follows(hash, rounds[i - 1], rounds[i]);
  }

  lemma {:induction false} CleanLeavesRemnants(hash: Bytes -> Digest, k: Planned, s: System)
    requires WellPlanned(hash, k) && EndsClean(hash, k, s)
    ensures Sound(DealOf(k)) && Remnants(DealOf(k), s, false)
  {
    var d := DealOf(k);
    PlansAgree(hash, k);
    var states: seq<System>, actions: seq<Action> :|
      Run(hash, Universe(d), states, actions) && Start(hash, d, states[0]) && s == states[|actions|] &&
        NoTempStops(actions);
    RunLeavesRemnants(hash, d, states, actions, |actions|, false);
  }

  /** What is assumed of the first pair of folders holds of every later one. */
  lemma {:induction false} EveryRoundWellPlanned(hash: Bytes -> Digest, rounds: seq<Round>, i: nat)
    requires AnySeries(hash, rounds) && i < |rounds|
    ensures WellPlanned(hash, rounds[i].plan) && PlainNames(AllNames(rounds[i].plan))
  {
    if i == 0 {
      PlainIsOrdinary(AllNames(rounds[0].plan));
    } else {
      EveryRoundWellPlanned(hash, rounds, i - 1);
      FollowerIsWellPlanned(hash, rounds[i - 1], rounds[i]);
    }
  }

  lemma {:induction false} FollowerIsWellPlanned(hash: Bytes -> Digest, before: Round, after: Round)
    requires WellPlanned(hash, before.plan) && PlainNames(AllNames(before.plan))
    requires Follows(hash, before, after) && Reconciled(hash, after.plan)
    ensures WellPlanned(hash, after.plan) && PlainNames(AllNames(after.plan))
  {
    CleanLeavesRemnants(hash, before.plan, before.end);
    NextIsWellPlanned(hash, before.plan, before.end, after.plan);
  }

  /** From the third session on the folders are equal if the backups of the first fit. */
  lemma {:induction false} EqualFromThird(hash: Bytes -> Digest, rounds: seq<Round>, i: nat)
    requires Series(hash, rounds) && 2 <= i < |rounds| && Completed(hash, rounds[0].plan, rounds[0].end)
    requires LeftoversFit(hash, rounds[0].plan, rounds[0].end)
    ensures rounds[i].plan.client == rounds[i].plan.server
  {
    assert Continues(rounds[i - 1].end, rounds[i].plan);
    if i == 2 {
      assert Continues(rounds[1 - 1].end, rounds[1].plan);
      SecondSession(hash, rounds[0].plan, rounds[0].end, rounds[1].plan, rounds[1].end);
    } else {
      EqualFromThird(hash, rounds, i - 1);
      SeriesIsAny(hash, rounds);
      EveryRoundWellPlanned(hash, rounds, i - 1);
      IdleSession(hash, rounds[i - 1].plan, rounds[i - 1].end);
    }
  }

  lemma {:induction false} StuckForever(hash: Bytes -> Digest, rounds: seq<Round>, i: nat, r: Role, p: Path)
    requires AnySeries(hash, rounds) && 1 <= i < |rounds|
    requires Stuck(rounds[0].end.client.files, rounds[0].end.server.files, r, p)
    ensures Stuck(rounds[i].plan.client, rounds[i].plan.server, r, p)
  {
    assert Follows(hash, rounds[i - 1], rounds[i]);
    if i > 1 {
      StuckForever(hash, rounds, i - 1, r, p);
      EveryRoundWellPlanned(hash, rounds, i - 1);
      StuckStays(hash, rounds[i - 1].plan, rounds[i - 1].end, r, p);
    }
  }

  /** A backup that does not fit is on one side only, and cannot leave it. */
  lemma {:induction false} MisfitIsStuck(hash: Bytes -> Digest, k: Planned, s: System) returns (r: Role, p: Path)
    requires Completed(hash, k, s) && !LeftoversFit(hash, k, s)
    ensures Stuck(s.client.files, s.server.files, r, p)
  {
    AfterCompleted(hash, k, s);
    if !BackupsFit(hash, s.client, ViewOf(DealOf(k), Client)) {
      r := Client;
      p :| IsBackup(hash, s.client, ViewOf(DealOf(k), Client), p) && p in s.client.files && !Fits(p, s.client.files[p]);
    } else {
      r := Server;
      p :| IsBackup(hash, s.server, ViewOf(DealOf(k), Server), p) && p in s.server.files && !Fits(p, s.server.files[p]);
    }
  }

  /** A backup of the first session that does not fit keeps every later plan from being empty. */
  lemma {:induction false} MisfitNeverSettles(hash: Bytes -> Digest, rounds: seq<Round>, i: nat)
    requires AnySeries(hash, rounds) && 1 <= i < |rounds| && Completed(hash, rounds[0].plan, rounds[0].end)
    requires !LeftoversFit(hash, rounds[0].plan, rounds[0].end)
    ensures !EmptyPlans(rounds[i].plan)
  {
    var r, p := MisfitIsStuck(hash, rounds[0].plan, rounds[0].end);
    StuckForever(hash, rounds, i, r, p);
    EveryRoundWellPlanned(hash, rounds, i);
    StuckPlans(hash, rounds[i].plan, r, p);
  }

  // ----- the condition, said about the first plan

  /** The backups of a side are the old copies of the files it had replaced, each under its backup name. */
  lemma {:induction false} BackupsAreOldCopies(hash: Bytes -> Digest, x: Peer, v: View)
    requires BackedUp(hash, x, v)
    ensures BackupsFit(hash, x, v) <==>
      forall p :: p in x.log.backups && p in v.theirs ==> Fits(BackupOf(hash, x, v, p), v.mine[p])
  {
    if BackupsFit(hash, x, v) {
      forall p | p in x.log.backups && p in v.theirs ensures Fits(BackupOf(hash, x, v, p), v.mine[p]) {
        assert IsBackup(hash, x, v, BackupOf(hash, x, v, p));
      }
    } else {
      var q :| IsBackup(hash, x, v, q) && q in x.files && !Fits(q, x.files[q]);
      var p :| p in x.log.backups && p in v.theirs && q == BackupOf(hash, x, v, p);
      assert !Fits(BackupOf(hash, x, v, p), v.mine[p]);
    }
  }

  /** The name under which a side keeps the copy that the other side's `winning` copy replaced. */
  ghost function LosersName(hash: Bytes -> Digest, x: Peer, p: Path, winning: Bytes): Path {
    BackupName(hash, x.loser, p, winning, if p in x.log.backups then x.log.backups[p] else 0)
  }

  /** Wherever the two folders differed, the copy that lost fits the limits under the name it was given. */
  ghost predicate LosersFit(hash: Bytes -> Digest, k: Planned, s: System) {
    forall p :: p in k.client && p in k.server && k.client[p] != k.server[p] ==>
      if ClientWins(k, p) then Fits(LosersName(hash, s.server, p, k.client[p]), k.server[p])
      else Fits(LosersName(hash, s.client, p, k.server[p]), k.client[p])
  }

  /** If the other side's copy replaced a different one, that one fits. */
  ghost predicate LoserFitsAt(hash: Bytes -> Digest, x: Peer, v: View, p: Path) {
    p in v.theirPush && p in v.theirs && Conflicted(v.mine, p, v.theirs[p]) ==>
      Fits(LosersName(hash, x, p, v.theirs[p]), v.mine[p])
  }

  /** One side's half of that condition. */
  lemma {:induction false} LosersOfSide(hash: Bytes -> Digest, x: Peer, v: View)
    requires BackedUp(hash, x, v) && x.rx.received == v.theirPush
    ensures BackupsFit(hash, x, v) <==> forall p :: LoserFitsAt(hash, x, v, p)
  {
    BackupsAreOldCopies(hash, x, v);
    forall p | p in v.theirs && p in x.log.backups
      ensures LoserFitsAt(hash, x, v, p) <==> Fits(BackupOf(hash, x, v, p), v.mine[p])
    {
      assert BackupOf(hash, x, v, p) == LosersName(hash, x, p, v.theirs[p]);
    }
    assert forall p :: p in v.theirPush && p in v.theirs && Conflicted(v.mine, p, v.theirs[p]) ==> p in x.log.backups;
  }

  lemma {:induction false} LeftoversAreLosers(hash: Bytes -> Digest, k: Planned, s: System)
    requires Completed(hash, k, s)
    ensures LeftoversFit(hash, k, s) <==> LosersFit(hash, k, s)
  {
    var d := DealOf(k);
    CompletedInv(hash, k, s);
    BothDoneSettled(hash, d, s);
    PlansAgree(hash, k);
    LosersOfSide(hash, s.client, ViewOf(d, Client));
    LosersOfSide(hash, s.server, ViewOf(d, Server));
    LosersOfBoth(hash, k, s);
  }

  lemma {:induction false} LosersOfBoth(hash: Bytes -> Digest, k: Planned, s: System)
    requires forall p :: p in DealOf(k).clientPush <==> ClientWins(k, p)
    requires forall p :: p in DealOf(k).serverPush <==> ServerWins(k, p)
    ensures LosersFit(hash, k, s) <==>
      (forall p :: LoserFitsAt(hash, s.client, ViewOf(DealOf(k), Client), p)) &&
      (forall p :: LoserFitsAt(hash, s.server, ViewOf(DealOf(k), Server), p))
  {
    var c, v := ViewOf(DealOf(k), Client), ViewOf(DealOf(k), Server);
    if LosersFit(hash, k, s) {
      forall p ensures LoserFitsAt(hash, s.client, c, p) && LoserFitsAt(hash, s.server, v, p) {
      }
    } else {
      var p :| p in k.client && p in k.server && k.client[p] != k.server[p] &&
        !if ClientWins(k, p) then Fits(LosersName(hash, s.server, p, k.client[p]), k.server[p])
         else Fits(LosersName(hash, s.client, p, k.server[p]), k.client[p]);
      assert !LoserFitsAt(hash, s.client, c, p) || !LoserFitsAt(hash, s.server, v, p);
    }
  }

  /**
   The fixpoint. After a completed session, and however many sessions without aborts follow, every
   plan from the third session on is empty on both sides if and only if, wherever the first two
   folders differed, the losing copy fits the receiver's limits under its backup name; a single one
   that does not keeps all later plans from being empty. This holds whatever the indexes, stamps, plan
   orders and time stamps of each session.
   */
  lemma {:induction false} Fixpoint(hash: Bytes -> Digest, rounds: seq<Round>, i: nat)
    requires Series(hash, rounds) && 2 <= i < |rounds| && Completed(hash, rounds[0].plan, rounds[0].end)
    ensures EmptyPlans(rounds[i].plan) <==> LosersFit(hash, rounds[0].plan, rounds[0].end)
  {
    SeriesIsAny(hash, rounds);
    LeftoversAreLosers(hash, rounds[0].plan, rounds[0].end);
    if LeftoversFit(hash, rounds[0].plan, rounds[0].end) {
      EqualFromThird(hash, rounds, i);
      EveryRoundWellPlanned(hash, rounds, i);
      EqualFoldersPlanNothing(hash, rounds[i].plan);
    } else {
      MisfitNeverSettles(hash, rounds, i);
    }
  }

  /** Some losing copy is too large to travel. */
  ghost predicate LargeLoser(k: Planned, p: Path) {
    && p in k.client && p in k.server && k.client[p] != k.server[p]
    && (if ClientWins(k, p) then |k.server[p]| > MAX_BUFFERED else |k.client[p]| > MAX_BUFFERED)
  }

  /**
   A losing copy of more than 256 MiB does not travel in the first session but must travel in all
   later ones, so no plan after such a session is ever empty, wherever the sessions are cut short.
   */
  lemma {:induction false} LargeLoserNeverSettles(hash: Bytes -> Digest, rounds: seq<Round>, i: nat, p: Path)
    requires AnySeries(hash, rounds) && 1 <= i < |rounds| && Completed(hash, rounds[0].plan, rounds[0].end)
    requires LargeLoser(rounds[0].plan, p)
    ensures !EmptyPlans(rounds[i].plan)
  {
    LeftoversAreLosers(hash, rounds[0].plan, rounds[0].end);
    MisfitNeverSettles(hash, rounds, i);
  }
}
