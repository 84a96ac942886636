/**
 Progress: as long as the clock can tell more moments than there are files, a side that has something
 to read can read it, so every state of a session can be carried to rest without an abort.
 */
module SessionProgress {
  import opened Basics
  import opened Runs
  import opened BackupNames
  import opened Session
  import opened SessionFiles
  import opened SessionRuns
  import opened SessionTheorems

  const STAMPS: nat := 0x1_0000_0000_0000_0000

  // ----- a fresh backup name can always be found

  lemma {:induction false} StampsDiffer(hash: Bytes -> Digest, loser: string, p: Path, data: Bytes, a: U64, b: U64)
    requires GoodLabel(loser)
    ensures BackupName(hash, loser, p, data, a) == BackupName(hash, loser, p, data, b) ==> a == b
  {
    if BackupName(hash, loser, p, data, a) == BackupName(hash, loser, p, data, b) {
      BackupParts(hash, loser, data);
      BackupInjective(p, a, loser, ShortHash(hash(data)), p, b, loser, ShortHash(hash(data)));
    }
  }

  lemma {:induction false} FreshStamp(hash: Bytes -> Digest, universe: set<Path>, loser: string, p: Path, data: Bytes)
    requires GoodLabel(loser) && |universe| < STAMPS
    ensures exists ts: U64 :: BackupName(hash, loser, p, data, ts) !in universe
  {
    var name := (i: nat) => if i < STAMPS then BackupName(hash, loser, p, data, i) else p;
    forall i, j | 0 <= i < j < STAMPS ensures name(i) != name(j) {
      StampsDiffer(hash, loser, p, data, i, j);
    }
    OneOutside(name, STAMPS, universe);
    var i: nat :| i < STAMPS && name(i) !in universe;
    var ts: U64 := i;
    assert BackupName(hash, loser, p, data, ts) !in universe;
  }

  // ----- what can act has an action

  lemma {:induction false} FreshBackupStamp(hash: Bytes -> Digest, universe: set<Path>, x: Peer, m: Message)
    returns (ts: U64)
    requires GoodLabel(x.loser) && |universe| < STAMPS
    ensures FreshBackup(hash, universe, x, m, ts)
  {
    ts := 0;
    var file := Completes(hash, x, m);
    if file.Some? {
      FreshStamp(hash, universe, x.loser, m.chunk.path, file.value);
      ts :| BackupName(hash, x.loser, m.chunk.path, file.value, ts) !in universe;
    }
  }

  /** Some regular action is enabled whenever some side can act. */
  lemma {:induction false} ActionExists(hash: Bytes -> Digest, d: Deal, s: System) returns (a: Action)
    requires Sound(d) && SystemInv(hash, d, s) && CanAct(s) && |Universe(d)| < STAMPS
    ensures (a.Sends? || a.Receives?) && Enabled(hash, Universe(d), s, a)
  {
    if CanSend(s.client) {
      a := Sends(Client);
    } else if CanSend(s.server) {
      a := Sends(Server);
    } else if CanReceive(s.client) && s.toClient != [] {
      var ts := FreshBackupStamp(hash, Universe(d), s.client, s.toClient[0]);
      a := Receives(Client, ts);
    } else {
      var ts := FreshBackupStamp(hash, Universe(d), s.server, s.toServer[0]);
      a := Receives(Server, ts);
    }
  }

  // ----- carrying a session to its end

  /** A run without aborts from `s` to a state in which no side can act. */
  ghost predicate LeadsToRest(hash: Bytes -> Digest, universe: set<Path>, s: System, states: seq<System>,
                              actions: seq<Action>) {
    Run(hash, universe, states, actions) && states[0] == s && NoAborts(actions) && !CanAct(states[|actions|])
  }

  lemma {:induction false} PrependStep(hash: Bytes -> Digest, universe: set<Path>, s: System, a: Action,
                                       states: seq<System>, actions: seq<Action>)
    requires Enabled(hash, universe, s, a) && (a.Sends? || a.Receives?)
    requires LeadsToRest(hash, universe, Apply(hash, universe, s, a), states, actions)
    ensures LeadsToRest(hash, universe, s, [s] + states, [a] + actions)
  {
    StepThenRun(Next(hash, universe), s, a, states, actions);
  }

  lemma {:induction false} Advance(hash: Bytes -> Digest, d: Deal, s: System) returns (a: Action)
    requires Sound(d) && SystemInv(hash, d, s) && CanAct(s) && |Universe(d)| < STAMPS
    ensures (a.Sends? || a.Receives?) && Enabled(hash, Universe(d), s, a)
    ensures SystemInv(hash, d, Apply(hash, Universe(d), s, a))
    ensures WorkLeft(hash, d)(Apply(hash, Universe(d), s, a)) < WorkLeft(hash, d)(s)
  {
    a := ActionExists(hash, d, s);
    ActionWorks(hash, d, s, a);
  }

  /** From every state of a session, also one with a failed side, a run without aborts leads to rest. */
  lemma {:induction false} CarryToRest(hash: Bytes -> Digest, d: Deal, s: System)
    returns (states: seq<System>, actions: seq<Action>)
    requires Sound(d) && SystemInv(hash, d, s) && |Universe(d)| < STAMPS
    ensures LeadsToRest(hash, Universe(d), s, states, actions)
    decreases WorkLeft(hash, d)(s)
  {
    if !CanAct(s) {
      states, actions := [s], [];
    } else {
      var a := Advance(hash, d, s);
      var rest, acts := CarryToRest(hash, d, Apply(hash, Universe(d), s, a));
      PrependStep(hash, Universe(d), s, a, rest, acts);
      states, actions := [s] + rest, [a] + acts;
    }
  }

  /** In a sound deal whose files all fit, both ends can be brought to their regular exit from every start. */
  lemma {:induction false} SessionCanComplete(hash: Bytes -> Digest, d: Deal, s: System)
    returns (states: seq<System>, actions: seq<Action>)
    requires Sound(d) && AllFit(d) && Start(hash, d, s) && |Universe(d)| < STAMPS
    ensures LeadsToRest(hash, Universe(d), s, states, actions)
    ensures Done(states[|actions|].client) && Done(states[|actions|].server)
  {
    StartInv(hash, d, s);
    states, actions := CarryToRest(hash, d, s);
    CompletesIffAllFit(hash, d, states, actions);
  }
}
