/**
 The change scheduler: collects raw file system events, coalesces them per path and releases them in
 batches when a quiet period ends, a batch is full, or the input closes.
 */
module Scheduler {
  import opened Basics
  import opened Runs

  datatype ChangeEvent =
    | Created(path: Path)
    | Modified(path: Path)
    | Deleted(path: Path)
    | Renamed(from: Path, to: Path)

  type Batch = seq<ChangeEvent>

  function PrimaryPath(e: ChangeEvent): Path {
    match e
    case Created(p) => p
    case Modified(p) => p
    case Deleted(p) => p
    case Renamed(from, _) => from
  }

  /** Merge the state of a path with the next event for it; no state means no net change so far. */
  function MergeEvents(prev: Option<ChangeEvent>, next: ChangeEvent): Option<ChangeEvent> {
    match (prev, next)
    case (Some(Created(_)), Modified(p)) => Some(Created(p))
    case (Some(Created(_)), Deleted(_)) => None
    case (Some(Modified(_)), Deleted(p)) => Some(Deleted(p))
    case (Some(Deleted(_)), Created(p)) => Some(Modified(p))
    case (Some(Deleted(_)), Modified(p)) => Some(Modified(p))
    case (_, other) => Some(other)
  }

  // ----- coalescing, as a function of the events

  /** The events of one path, merged from left to right. */
  ghost function Net(events: seq<ChangeEvent>, p: Path): Option<ChangeEvent> {
    if events == [] then None
    else
      var n := |events| - 1;
      var prev := Net(events[..n], p);
      if PrimaryPath(events[n]) == p then MergeEvents(prev, events[n]) else prev
  }

  /** The paths of the events in the order of their first appearance. */
  ghost function FirstSeen(events: seq<ChangeEvent>): seq<Path> {
    if events == [] then []
    else
      var n := |events| - 1;
      var before := FirstSeen(events[..n]);
      if PrimaryPath(events[n]) in before then before else before + [PrimaryPath(events[n])]
  }

  /** The net events of a list of paths; paths without net change are left out. */
  ghost function NetOf(events: seq<ChangeEvent>, ps: seq<Path>): Batch {
    if ps == [] then []
    else
      var rest := NetOf(events, ps[..|ps| - 1]);
      match Net(events, ps[|ps| - 1])
      case Some(e) => rest + [e]
      case None => rest
  }

  ghost function Coalesced(events: seq<ChangeEvent>): Batch {
    NetOf(events, FirstSeen(events))
  }

  /** The coalescing loop. */
  method Coalesce(events: seq<ChangeEvent>) returns (batch: Batch)
    ensures batch == Coalesced(events)
  {
    if events == [] {
      return [];
    }
    var finalState: map<Path, Option<ChangeEvent>> := map[];
    var order: seq<Path> := [];
    for i := 0 to |events|
      invariant order == FirstSeen(events[..i])
      invariant forall p :: p in finalState <==> p in order
      invariant forall p :: p in finalState ==> finalState[p] == Net(events[..i], p)
      invariant forall p :: p !in finalState ==> Net(events[..i], p) == None
    {
      assert events[..i + 1][..i] == events[..i] && events[..i + 1][i] == events[i];
      var path := PrimaryPath(events[i]);
      if path !in finalState {
        order := order + [path];
      }
      var prev := if path in finalState then finalState[path] else None;
      finalState := finalState[path := MergeEvents(prev, events[i])];
    }
    assert events[..|events|] == events;
    batch := [];
    for i := 0 to |order|
      invariant batch == NetOf(events, order[..i])
    {
      assert order[..i + 1][..i] == order[..i];
      if finalState[order[i]].Some? {
        batch := batch + [finalState[order[i]].value];
      }
    }
    assert order[..|order|] == order;
  }

  // ----- what a stream of events means

  /** Which files exist after a stream of events. */
  ghost function Replay(present: set<Path>, events: seq<ChangeEvent>): set<Path> {
    if events == [] then present
    else
      var n := |events| - 1;
      var now := Replay(present, events[..n]);
      Happens(now, events[n])
  }

  ghost function Happens(now: set<Path>, e: ChangeEvent): set<Path> {
    match e
    case Created(p) => now + {p}
    case Modified(_) => now
    case Deleted(p) => now - {p}
    case Renamed(from, to) => now - {from} + {to}
  }

  /** An event that can happen to a folder with these files; renames are not produced by the watcher. */
  ghost predicate Possible(present: set<Path>, e: ChangeEvent) {
    match e
    case Created(p) => p !in present
    case Modified(p) => p in present
    case Deleted(p) => p in present
    case Renamed(_, _) => false
  }

  ghost predicate WellFormed(present: set<Path>, events: seq<ChangeEvent>) {
    forall i :: 0 <= i < |events| ==> Possible(Replay(present, events[..i]), events[i])
  }

  /** The net change of one path between two moments, given whether anything happened to it. */
  ghost function NetChange(before: bool, after: bool, touched: bool, p: Path): Option<ChangeEvent> {
    if !touched || (!before && !after) then None
    else if !before then Some(Created(p))
    else if !after then Some(Deleted(p))
    else Some(Modified(p))
  }

  ghost predicate Touches(events: seq<ChangeEvent>, p: Path) {
    exists i :: 0 <= i < |events| && PrimaryPath(events[i]) == p
  }

  lemma {:induction false} WellFormedPrefix(present: set<Path>, events: seq<ChangeEvent>, n: nat)
    requires WellFormed(present, events) && n <= |events|
    ensures WellFormed(present, events[..n])
  {
    forall i | 0 <= i < n ensures Possible(Replay(present, events[..n][..i]), events[..n][i]) {
      assert events[..n][..i] == events[..i];
    }
  }

  /** Merging computes exactly the net change of each path. */
  lemma {:induction false} NetIsNetChange(present: set<Path>, events: seq<ChangeEvent>, p: Path)
    requires WellFormed(present, events)
    ensures Net(events, p) == NetChange(p in present, p in Replay(present, events), Touches(events, p), p)
    ensures !Touches(events, p) ==> (p in present <==> p in Replay(present, events))
  {
    if events != [] {
      var n := |events| - 1;
      var a := events[..n];
      WellFormedPrefix(present, events, n);
      NetIsNetChange(present, a, p);
      assert Possible(Replay(present, a), events[n]);
      TouchesLast(events, p);
      MergeStep(p in present, Replay(present, a), Touches(a, p), Net(a, p), events[n], p);
    }
  }

  lemma {:induction false} TouchesLast(events: seq<ChangeEvent>, p: Path)
    requires events != []
    ensures Touches(events, p) <==> Touches(events[..|events| - 1], p) || PrimaryPath(events[|events| - 1]) == p
  {
    var a := events[..|events| - 1];
    assert forall i :: 0 <= i < |a| ==> a[i] == events[i];
  }

  /** One more event: merging keeps the net change, and no other path is affected. */
  lemma {:induction false} MergeStep(before: bool, now: set<Path>, touched: bool, prev: Option<ChangeEvent>,
                                     e: ChangeEvent, p: Path)
    requires Possible(now, e) && prev == NetChange(before, p in now, touched, p)
    requires !touched ==> (before <==> p in now)
    ensures PrimaryPath(e) == p ==> MergeEvents(prev, e) == NetChange(before, p in Happens(now, e), true, p)
    ensures PrimaryPath(e) != p ==> (p in Happens(now, e) <==> p in now)
  {
  }

  lemma {:induction false} FirstSeenPaths(events: seq<ChangeEvent>)
    ensures forall p :: p in FirstSeen(events) <==> Touches(events, p)
    ensures Distinct(FirstSeen(events))
  {
    if events != [] {
      var n := |events| - 1;
      var a := events[..n];
      FirstSeenPaths(a);
      var q := PrimaryPath(events[n]);
      assert forall i :: 0 <= i < n ==> a[i] == events[i];
      forall p ensures Touches(events, p) <==> Touches(a, p) || q == p {
        if Touches(a, p) {
          var i :| 0 <= i < n && PrimaryPath(a[i]) == p;
          assert PrimaryPath(events[i]) == p;
        }
      }
      var b := FirstSeen(a) + [q];
      assert forall i {:trigger b[..i]} :: 0 <= i <= |FirstSeen(a)| ==> b[..i] == FirstSeen(a)[..i];
    }
  }

  /** Apart from the five pairs that are simplified, the later event of a path stands for both. */
  lemma {:induction false} LaterEventStands(prev: Option<ChangeEvent>, next: ChangeEvent)
    requires !(prev.Some? && prev.value.Created? && (next.Modified? || next.Deleted?))
    requires !(prev.Some? && prev.value.Deleted? && (next.Created? || next.Modified?))
    ensures MergeEvents(prev, next) == Some(next)
  {
  }

  /** A rename counts for the path it starts from and for no other. */
  lemma {:induction false} RenameCountsForSource(events: seq<ChangeEvent>, from: Path, to: Path, q: Path)
    ensures Net(events + [Renamed(from, to)], q) == if q == from then Some(Renamed(from, to)) else Net(events, q)
  {
    var all := events + [Renamed(from, to)];
    assert all[..|events|] == events;
    LaterEventStands(Net(events, from), Renamed(from, to));
  }

  /** The first event of a path. */
  ghost predicate FirstAt(events: seq<ChangeEvent>, p: Path, i: nat) {
    i < |events| && PrimaryPath(events[i]) == p && forall j :: 0 <= j < i ==> PrimaryPath(events[j]) != p
  }

  /** Paths are listed in the order of their first events. */
  lemma {:induction false} OrderOfFirstEvents(events: seq<ChangeEvent>, a: nat, b: nat, i: nat, j: nat)
    requires a < b < |FirstSeen(events)| && FirstAt(events, FirstSeen(events)[a], i)
    requires FirstAt(events, FirstSeen(events)[b], j)
    ensures i < j
  {
    var n := |events| - 1;
    var before, seen, q := events[..n], FirstSeen(events[..n]), PrimaryPath(events[n]);
    FirstSeenPaths(before);
    assert forall k :: 0 <= k < n ==> before[k] == events[k];
    assert seen[a] in seen && Touches(before, seen[a]);
    FirstInPrefix(events, seen[a], i);
    if b < |seen| {
      assert seen[b] in seen && Touches(before, seen[b]);
      FirstInPrefix(events, seen[b], j);
      OrderOfFirstEvents(before, a, b, i, j);
    } else {
      assert forall k :: 0 <= k < n ==> PrimaryPath(before[k]) != q;
    }
  }

  lemma {:induction false} FirstInPrefix(events: seq<ChangeEvent>, p: Path, i: nat)
    requires events != [] && Touches(events[..|events| - 1], p) && FirstAt(events, p, i)
    ensures FirstAt(events[..|events| - 1], p, i)
  {
    var before := events[..|events| - 1];
    var k :| 0 <= k < |before| && PrimaryPath(before[k]) == p;
    assert PrimaryPath(events[k]) == p;
    assert forall j :: 0 <= j < |before| ==> before[j] == events[j];
  }

  /** Replaying net events: each listed path ends up as it should, no other path changes. */
  lemma {:induction false} ReplayNetOf(present: set<Path>, events: seq<ChangeEvent>, ps: seq<Path>)
    requires WellFormed(present, events) && Distinct(ps) && forall p :: p in ps ==> Touches(events, p)
    ensures forall p :: p in Replay(present, NetOf(events, ps)) <==>
              if p in ps then p in Replay(present, events) else p in present
    ensures WellFormed(present, NetOf(events, ps))
  {
    if ps != [] {
      var n := |ps| - 1;
      var a, q := ps[..n], ps[n];
      assert forall i {:trigger a[..i]} :: 0 <= i < n ==> a[..i] == ps[..i];
      assert ps == a + [q] && q !in ps[..n];
      ReplayNetOf(present, events, a);
      NetIsNetChange(present, events, q);
      var rest := NetOf(events, a);
      if Net(events, q).Some? {
        NetChangeApplies(Replay(present, rest), q in Replay(present, events), Net(events, q).value, q);
        WellFormedLast(present, rest, Net(events, q).value);
      }
    }
  }

  lemma {:induction false} WellFormedLast(present: set<Path>, events: seq<ChangeEvent>, e: ChangeEvent)
    requires WellFormed(present, events) && Possible(Replay(present, events), e)
    ensures WellFormed(present, events + [e]) && Replay(present, events + [e]) == Happens(Replay(present, events), e)
  {
    var all := events + [e];
    assert all[..|events|] == events;
    forall i | 0 <= i < |all| ensures Possible(Replay(present, all[..i]), all[i]) {
      if i < |events| {
        assert all[..i] == events[..i];
      }
    }
  }

  /** A net change can happen where the path is as it was, and makes it what it should become. */
  lemma {:induction false} NetChangeApplies(now: set<Path>, after: bool, e: ChangeEvent, p: Path)
    requires NetChange(p in now, after, true, p) == Some(e)
    ensures Possible(now, e)
    ensures forall q :: q in Happens(now, e) <==> if q == p then after else q in now
  {
  }

  /**
   A coalesced batch means the same as the events it came from: it is itself a possible course of
   events, it leaves the same files present, and it holds for each path exactly the net change.
   */
  lemma {:induction false} CoalescingKeepsMeaning(present: set<Path>, events: seq<ChangeEvent>)
    requires WellFormed(present, events)
    ensures WellFormed(present, Coalesced(events))
    ensures Replay(present, Coalesced(events)) == Replay(present, events)
  {
    FirstSeenPaths(events);
    ReplayNetOf(present, events, FirstSeen(events));
    forall p ensures p in Replay(present, Coalesced(events)) <==> p in Replay(present, events) {
      NetIsNetChange(present, events, p);
    }
  }

  /** The entries of a batch are the net changes, no more and no less, one per path. */
  lemma {:induction false} BatchEntries(events: seq<ChangeEvent>, ps: seq<Path>, e: ChangeEvent)
    ensures e in NetOf(events, ps) <==> exists p :: p in ps && Net(events, p) == Some(e)
  {
    if ps != [] {
      var n := |ps| - 1;
      BatchEntries(events, ps[..n], e);
      assert forall p :: p in ps <==> p in ps[..n] || p == ps[n];
      assert e in NetOf(events, ps) <==> e in NetOf(events, ps[..n]) || Net(events, ps[n]) == Some(e);
      if p :| p in ps && Net(events, p) == Some(e) {
        assert p != ps[n] ==> p in ps[..n];
      }
      if p :| p in ps[..n] && Net(events, p) == Some(e) {
        assert p in ps;
      }
      assert ps[n] in ps;
    }
  }

  lemma {:induction false} BatchIsNetChange(present: set<Path>, events: seq<ChangeEvent>, e: ChangeEvent)
    requires WellFormed(present, events)
    ensures e in Coalesced(events) <==>
      exists p :: Touches(events, p) && NetChange(p in present, p in Replay(present, events), true, p) == Some(e)
  {
    FirstSeenPaths(events);
    BatchEntries(events, FirstSeen(events), e);
    forall p | Touches(events, p)
      ensures Net(events, p) == NetChange(p in present, p in Replay(present, events), true, p)
    {
      NetIsNetChange(present, events, p);
    }
  }

  // ----- the scheduler as a state machine

  /**
   Besides the variables of the loop the state records what has been consumed and the raw input of
   every flush, so that runs can be spoken about.
   */
  datatype State = State(
    pending: seq<ChangeEvent>,
    deadline: bool,               // whether a quiet-period timer is running
    emitted: seq<Batch>,
    closed: bool,
    consumed: seq<ChangeEvent>,
    flushed: seq<seq<ChangeEvent>>)

  const START := State([], false, [], false, [], [])

  datatype Input = Arrives(event: ChangeEvent) | TimerFires | Closes

  predicate Enabled(s: State, a: Input) {
    !s.closed && (a.TimerFires? ==> s.deadline)
  }

  /** Coalesce what is pending, send it on unless nothing is left of it, stop the timer. */
  ghost function Flush(s: State): State {
    var batch := Coalesced(s.pending);
    s.(pending := [], deadline := false,
       emitted := if batch == [] then s.emitted else s.emitted + [batch],
       flushed := s.flushed + [s.pending])
  }

  ghost function Step(maxBatch: nat, s: State, a: Input): State {
    match a
    case Arrives(e) =>
      var t := s.(pending := s.pending + [e], consumed := s.consumed + [e]);
      // the size limit is not looked at when the first event of a batch arrives
      if s.deadline && maxBatch > 0 && |t.pending| >= maxBatch then Flush(t) else t.(deadline := true)
    case TimerFires => Flush(s)
    case Closes => if s.deadline then Flush(s).(closed := true) else s.(closed := true)
  }

  ghost function Next(maxBatch: nat): (State, Input, State) -> bool {
    (s, a, s') => Enabled(s, a) && s' == Step(maxBatch, s, a)
  }

  ghost function Flat(bs: seq<seq<ChangeEvent>>): seq<ChangeEvent> {
    if bs == [] then [] else Flat(bs[..|bs| - 1]) + bs[|bs| - 1]
  }

  lemma {:induction false} FlatAppend(bs: seq<seq<ChangeEvent>>, b: seq<ChangeEvent>)
    ensures Flat(bs + [b]) == Flat(bs) + b
  {
    assert (bs + [b])[..|bs|] == bs;
  }

  function Limit(maxBatch: nat): nat {
    if maxBatch > 2 then maxBatch else 2
  }

  /** The batches sent are the coalesced flushes, without the empty ones. */
  ghost function Sent(flushed: seq<seq<ChangeEvent>>): seq<Batch> {
    if flushed == [] then []
    else
      var n := |flushed| - 1;
      var before := Sent(flushed[..n]);
      if Coalesced(flushed[n]) == [] then before else before + [Coalesced(flushed[n])]
  }

  lemma {:induction false} SentAppend(flushed: seq<seq<ChangeEvent>>, raw: seq<ChangeEvent>)
    ensures Sent(flushed + [raw]) == if Coalesced(raw) == [] then Sent(flushed) else Sent(flushed) + [Coalesced(raw)]
  {
    assert (flushed + [raw])[..|flushed|] == flushed;
  }

  ghost predicate Bookkeeping(maxBatch: nat, s: State) {
    && (s.deadline <==> s.pending != [])
    && (s.closed ==> s.pending == [])
    && s.consumed == Flat(s.flushed) + s.pending
    && s.emitted == Sent(s.flushed)
    && (maxBatch > 0 ==>
          |s.pending| < Limit(maxBatch) &&
          forall i :: 0 <= i < |s.flushed| ==> |s.flushed[i]| <= Limit(maxBatch))
  }

  lemma {:induction false} FlushKeepsBookkeeping(maxBatch: nat, s: State)
    requires s.consumed == Flat(s.flushed) + s.pending && s.emitted == Sent(s.flushed) && !s.closed
    requires maxBatch > 0 ==> |s.pending| <= Limit(maxBatch)
    requires maxBatch > 0 ==> forall i :: 0 <= i < |s.flushed| ==> |s.flushed[i]| <= Limit(maxBatch)
    ensures Bookkeeping(maxBatch, Flush(s)) && Bookkeeping(maxBatch, Flush(s).(closed := true))
  {
    FlatAppend(s.flushed, s.pending);
    SentAppend(s.flushed, s.pending);
    assert Flat(s.flushed) + s.pending + [] == Flat(s.flushed) + s.pending;
  }

  lemma {:induction false} StepKeepsBookkeeping(maxBatch: nat, s: State, a: Input)
    requires Bookkeeping(maxBatch, s) && Enabled(s, a)
    ensures Bookkeeping(maxBatch, Step(maxBatch, s, a))
  {
    match a {
      case Arrives(e) =>
        var t := s.(pending := s.pending + [e], consumed := s.consumed + [e]);
        assert t.consumed == Flat(s.flushed) + t.pending;
        if s.deadline && maxBatch > 0 && |t.pending| >= maxBatch {
          FlushKeepsBookkeeping(maxBatch, t);
        }
      case TimerFires => FlushKeepsBookkeeping(maxBatch, s);
      case Closes => FlushKeepsBookkeeping(maxBatch, s);
    }
  }

  /**
   In every reachable state the timer runs exactly while events are pending, the flushed and the
   pending events are exactly those consumed, in order, nothing is pending after the input closed,
   and with a size limit no flush exceeds max(2, limit).
   */
  lemma {:induction false} BookkeepingAlways(maxBatch: nat, states: seq<State>, inputs: seq<Input>, i: nat)
    requires IsRun(Next(maxBatch), states, inputs) && states[0] == START && i < |states|
    ensures Bookkeeping(maxBatch, states[i])
  {
    var inv := s => Bookkeeping(maxBatch, s);
    forall s, a, s' | inv(s) && Next(maxBatch)(s, a, s') ensures inv(s') {
      StepKeepsBookkeeping(maxBatch, s, a);
    }
    InvariantAlongRun(Next(maxBatch), inv, states, inputs, i);
  }

  // ----- when a batch is released, and when not

  /** What makes the scheduler release what is pending. */
  ghost predicate Due(maxBatch: nat, pending: seq<ChangeEvent>, a: Input) {
    match a
    case Arrives(_) => pending != [] && maxBatch > 0 && |pending| + 1 >= maxBatch
    case TimerFires => pending != []
    case Closes => pending != []
  }

  /** The events pending once the input has been read. */
  ghost function WithInput(pending: seq<ChangeEvent>, a: Input): seq<ChangeEvent> {
    if a.Arrives? then pending + [a.event] else pending
  }

  /**
   In every step of every run the pending events, with the one that arrives, are released together if
   that is due, and otherwise kept while nothing is released or sent.
   */
  lemma {:induction false} ReleasesExactlyWhenDue(maxBatch: nat, states: seq<State>, inputs: seq<Input>, i: nat)
    requires IsRun(Next(maxBatch), states, inputs) && states[0] == START && i < |inputs|
    ensures var s, t := states[i], states[i + 1];
      var now := WithInput(s.pending, inputs[i]);
      if Due(maxBatch, s.pending, inputs[i])
      then t.pending == [] && t.flushed == s.flushed + [now] &&
           t.emitted == if Coalesced(now) == [] then s.emitted else s.emitted + [Coalesced(now)]
      else t.pending == now && t.flushed == s.flushed && t.emitted == s.emitted
    ensures states[i + 1].consumed == WithInput(states[i].consumed, inputs[i])
    ensures states[i + 1].closed <==> inputs[i].Closes?
  {
    BookkeepingAlways(maxBatch, states, inputs, i);
    assert Next(maxBatch)(states[i], inputs[i], states[i + 1]);
  }

  /**
   Every release of a run has a cause: the timer, the close, or an arrival that made at least the
   limit pending; and what was released are exactly the events pending at that step.
   */
  lemma {:induction false} EveryReleaseHasACause(maxBatch: nat, states: seq<State>, inputs: seq<Input>, i: nat, j: nat)
    returns (k: nat)
    requires IsRun(Next(maxBatch), states, inputs) && states[0] == START && i < |states| && j < |states[i].flushed|
    ensures k < i && Due(maxBatch, states[k].pending, inputs[k])
    ensures |states[k].flushed| == j && states[i].flushed[j] == WithInput(states[k].pending, inputs[k])
  {
    k := i - 1;
    FlushedSoFar(maxBatch, states, inputs, k);
    if j < |states[k].flushed| {
      k := EveryReleaseHasACause(maxBatch, states, inputs, k, j);
    }
  }

  /** What one step adds to what has been released. */
  lemma {:induction false} FlushedSoFar(maxBatch: nat, states: seq<State>, inputs: seq<Input>, i: nat)
    requires IsRun(Next(maxBatch), states, inputs) && states[0] == START && i < |inputs|
    ensures states[i + 1].flushed ==
      if Due(maxBatch, states[i].pending, inputs[i]) then states[i].flushed + [WithInput(states[i].pending, inputs[i])]
      else states[i].flushed
  {
    ReleasesExactlyWhenDue(maxBatch, states, inputs, i);
  }

  lemma {:induction false} NetOfSize(events: seq<ChangeEvent>, ps: seq<Path>)
    ensures |NetOf(events, ps)| <= |ps|
  {
    if ps != [] {
      NetOfSize(events, ps[..|ps| - 1]);
    }
  }

  lemma {:induction false} FirstSeenSize(events: seq<ChangeEvent>)
    ensures |FirstSeen(events)| <= |events|
  {
    if events != [] {
      FirstSeenSize(events[..|events| - 1]);
    }
  }

  lemma {:induction false} SentFrom(flushed: seq<seq<ChangeEvent>>, b: Batch)
    requires b in Sent(flushed)
    ensures exists i :: 0 <= i < |flushed| && b == Coalesced(flushed[i])
  {
    var n := |flushed| - 1;
    if b in Sent(flushed[..n]) {
      SentFrom(flushed[..n], b);
      var i :| 0 <= i < n && b == Coalesced(flushed[..n][i]);
      assert b == Coalesced(flushed[i]);
    }
  }

  /** With a size limit no batch is longer than max(2, limit). */
  lemma {:induction false} BatchesBounded(maxBatch: nat, states: seq<State>, inputs: seq<Input>, i: nat, b: Batch)
    requires IsRun(Next(maxBatch), states, inputs) && states[0] == START && i < |states|
    requires maxBatch > 0 && b in states[i].emitted
    ensures |b| <= Limit(maxBatch)
  {
    BookkeepingAlways(maxBatch, states, inputs, i);
    SentFrom(states[i].flushed, b);
    var j :| 0 <= j < |states[i].flushed| && b == Coalesced(states[i].flushed[j]);
    NetOfSize(states[i].flushed[j], FirstSeen(states[i].flushed[j]));
    FirstSeenSize(states[i].flushed[j]);
  }

  /** The limit of two is real: with a limit of one event, two events still travel in one batch. */
  lemma {:induction false} LimitIsTwo(a: Path, b: Path)
    requires a != b
    ensures var s := Step(1, Step(1, START, Arrives(Created(a))), Arrives(Created(b)));
      s.emitted == [[Created(a), Created(b)]] && s.flushed == [[Created(a), Created(b)]] && s.pending == []
  {
    var one, two := [Created(a)], [Created(a), Created(b)];
    assert [] + one == one && one + [Created(b)] == two;
    CoalesceTwo(a, b);
    assert [] + [two] == [two];
  }

  lemma {:induction false} FirstOfTwo(a: Path, b: Path)
    requires a != b
    ensures FirstSeen([Created(a), Created(b)]) == [a, b]
  {
    var one, two := [Created(a)], [Created(a), Created(b)];
    assert two[..1] == one && one[..0] == [];
    assert FirstSeen(one) == [a];
  }

  lemma {:induction false} NetOfTwo(a: Path, b: Path)
    requires a != b
    ensures Net([Created(a), Created(b)], a) == Some(Created(a)) && Net([Created(a), Created(b)], b) == Some(Created(b))
  {
    var one, two := [Created(a)], [Created(a), Created(b)];
    assert two[..1] == one && one[..0] == [];
    assert Net(one, a) == Some(Created(a)) && Net(one, b) == None;
  }

  lemma {:induction false} CoalesceTwo(a: Path, b: Path)
    requires a != b
    ensures Coalesced([Created(a), Created(b)]) == [Created(a), Created(b)]
  {
    var two := [Created(a), Created(b)];
    FirstOfTwo(a, b);
    NetOfTwo(a, b);
    assert [a, b][..1] == [a] && [a][..0] == [];
    assert NetOf(two, [a]) == [Created(a)];
  }

  /** Every batch of every run keeps to the configured limit. */
  ghost predicate HonoursLimit(maxBatch: nat) {
    forall states: seq<State>, inputs: seq<Input>, i: nat, b: Batch ::
      IsRun(Next(maxBatch), states, inputs) && states[0] == START && i < |states| && b in states[i].emitted ==>
        |b| <= maxBatch
  }

  /** A size limit is honoured in all runs exactly when it is at least two. */
  lemma {:induction false} LimitHonouredIff(maxBatch: nat)
    requires maxBatch > 0
    ensures HonoursLimit(maxBatch) <==> maxBatch >= 2
  {
    if maxBatch >= 2 {
      forall states: seq<State>, inputs: seq<Input>, i: nat, b: Batch
        | IsRun(Next(maxBatch), states, inputs) && states[0] == START && i < |states| && b in states[i].emitted
        ensures |b| <= maxBatch
      {
        BatchesBounded(maxBatch, states, inputs, i, b);
      }
    } else {
      var first, second := Arrives(Created("a")), Arrives(Created("b"));
      TwoSteps(1, first, second);
      LimitIsTwo("a", "b");
      var s2 := Step(1, Step(1, START, first), second);
      assert [START, Step(1, START, first), s2][2] == s2;
      assert [Created("a"), Created("b")] in s2.emitted;
    }
  }

  lemma {:induction false} TwoSteps(maxBatch: nat, a: Input, b: Input)
    requires a.Arrives? && b.Arrives?
    ensures var s1 := Step(maxBatch, START, a);
      IsRun(Next(maxBatch), [START, s1, Step(maxBatch, s1, b)], [a, b])
  {
    var s1 := Step(maxBatch, START, a);
    var s2 := Step(maxBatch, s1, b);
    assert Enabled(START, a) && Enabled(s1, b);
    var next, states, inputs := Next(maxBatch), [START, s1, s2], [a, b];
    assert next(START, a, s1) && next(s1, b, s2);
    assert forall i :: 0 <= i < |inputs| ==> next(states[i], inputs[i], states[i + 1]);
  }

  // ----- meaning over whole runs

  lemma {:induction false} ReplayAppend(present: set<Path>, a: seq<ChangeEvent>, b: seq<ChangeEvent>)
    ensures Replay(present, a + b) == Replay(Replay(present, a), b)
  {
    if b == [] {
      assert a + b == a;
    } else {
      var n := |b| - 1;
      ReplayAppend(present, a, b[..n]);
      assert (a + b)[..|a| + n] == a + b[..n];
    }
  }

  lemma {:induction false} WellFormedSplit(present: set<Path>, a: seq<ChangeEvent>, b: seq<ChangeEvent>)
    requires WellFormed(present, a + b)
    ensures WellFormed(present, a) && WellFormed(Replay(present, a), b)
  {
    assert (a + b)[..|a|] == a;
    WellFormedPrefix(present, a + b, |a|);
    forall i | 0 <= i < |b| ensures Possible(Replay(Replay(present, a), b[..i]), b[i]) {
      ReplayAppend(present, a, b[..i]);
      assert (a + b)[..|a| + i] == a + b[..i] && (a + b)[|a| + i] == b[i];
    }
  }

  /** Replaying the batches sent leaves the same files present as replaying the raw flushes. */
  lemma {:induction false} SentKeepsMeaning(present: set<Path>, flushed: seq<seq<ChangeEvent>>)
    requires WellFormed(present, Flat(flushed))
    ensures Replay(present, Flat(Sent(flushed))) == Replay(present, Flat(flushed))
  {
    if flushed != [] {
      var n := |flushed| - 1;
      var before, raw := flushed[..n], flushed[n];
      assert flushed == before + [raw];
      FlatAppend(before, raw);
      WellFormedSplit(present, Flat(before), raw);
      SentKeepsMeaning(present, before);
      SentAppend(before, raw);
      CoalescingKeepsMeaning(Replay(present, Flat(before)), raw);
      ReplayAppend(present, Flat(before), raw);
      FlatAppend(Sent(before), Coalesced(raw));
      ReplayAppend(present, Flat(Sent(before)), Coalesced(raw));
    }
  }

  /**
   However arrivals, timer and close interleave, replaying the batches sent so far and then what is
   still pending leaves exactly the files present that the raw stream leaves; once the input has
   closed nothing is pending and the batches alone say it all.
   */
  lemma {:induction false} SchedulerKeepsMeaning(maxBatch: nat, states: seq<State>, inputs: seq<Input>, i: nat,
                                                 present: set<Path>)
    requires IsRun(Next(maxBatch), states, inputs) && states[0] == START && i < |states|
    requires WellFormed(present, states[i].consumed)
    ensures Replay(Replay(present, Flat(states[i].emitted)), states[i].pending) == Replay(present, states[i].consumed)
    ensures states[i].closed ==> Replay(present, Flat(states[i].emitted)) == Replay(present, states[i].consumed)
  {
    BookkeepingAlways(maxBatch, states, inputs, i);
    var s := states[i];
    WellFormedSplit(present, Flat(s.flushed), s.pending);
    SentKeepsMeaning(present, s.flushed);
    ReplayAppend(present, Flat(s.flushed), s.pending);
  }

  /** Each batch holds exactly the net change of every path since the batch before it. */
  lemma {:induction false} EveryBatchIsNetChange(maxBatch: nat, states: seq<State>, inputs: seq<Input>, i: nat,
                                                 present: set<Path>,
                                                 j: nat, e: ChangeEvent)
    requires IsRun(Next(maxBatch), states, inputs) && states[0] == START && i < |states|
    requires WellFormed(present, states[i].consumed) && j < |states[i].flushed|
    ensures var start, raw := Replay(present, Flat(states[i].flushed[..j])), states[i].flushed[j];
      e in Coalesced(raw) <==>
        exists p :: Touches(raw, p) && NetChange(p in start, p in Replay(start, raw), true, p) == Some(e)
  {
    BookkeepingAlways(maxBatch, states, inputs, i);
    var s := states[i];
    WellFormedSplit(present, Flat(s.flushed), s.pending);
    FlatWellFormed(present, s.flushed, j);
    BatchIsNetChange(Replay(present, Flat(s.flushed[..j])), s.flushed[j], e);
  }

  lemma {:induction false} FlatWellFormed(present: set<Path>, flushed: seq<seq<ChangeEvent>>, j: nat)
    requires WellFormed(present, Flat(flushed)) && j < |flushed|
    ensures WellFormed(Replay(present, Flat(flushed[..j])), flushed[j])
  {
    var n := |flushed| - 1;
    FlatAppend(flushed[..n], flushed[n]);
    assert flushed == flushed[..n] + [flushed[n]];
    WellFormedSplit(present, Flat(flushed[..n]), flushed[n]);
    if j < n {
      FlatWellFormed(present, flushed[..n], j);
      assert flushed[..n][..j] == flushed[..j];
    }
  }

  // ----- the loop itself

  /** The state after a script of inputs; inputs that cannot happen are ignored. */
  ghost function After(maxBatch: nat, s: State, script: seq<Input>): State
    decreases |script|
  {
    if script == [] then s
    else After(maxBatch, if Enabled(s, script[0]) then Step(maxBatch, s, script[0]) else s, script[1..])
  }

  /** One more input is one more step, if it can happen at all. */
  lemma {:induction false} AfterLast(maxBatch: nat, s: State, script: seq<Input>, a: Input)
    ensures After(maxBatch, s, script + [a]) ==
      var t := After(maxBatch, s, script); if Enabled(t, a) then Step(maxBatch, t, a) else t
    decreases |script|
  {
    if script == [] {
      assert script + [a] == [a] && [a][1..] == [];
    } else {
      var t := if Enabled(s, script[0]) then Step(maxBatch, s, script[0]) else s;
      assert (script + [a])[1..] == script[1..] + [a];
      AfterLast(maxBatch, t, script[1..], a);
    }
  }

  /** The inputs of a script that matter: all up to the first close but the timers. */
  ghost function Heard(script: seq<Input>): seq<Input> {
    if script == [] then []
    else if script[0].Closes? then [script[0]]
    else (if script[0].Arrives? then [script[0]] else []) + Heard(script[1..])
  }

  lemma {:induction false} ClosedStays(maxBatch: nat, s: State, script: seq<Input>)
    requires s.closed
    ensures After(maxBatch, s, script) == s
    decreases |script|
  {
    if script != [] {
      ClosedStays(maxBatch, s, script[1..]);
    }
  }

  /** What the loop makes of a script is a run that hears every arrival up to the close, and the close. */
  lemma {:induction false} AfterIsRun(maxBatch: nat, s: State, script: seq<Input>)
    returns (states: seq<State>, inputs: seq<Input>)
    requires !s.closed
    ensures IsRun(Next(maxBatch), states, inputs) && states[0] == s
    ensures states[|inputs|] == After(maxBatch, s, script) && Heard(inputs) == Heard(script)
    decreases |script|
  {
    if script == [] {
      states, inputs := [s], [];
    } else if !Enabled(s, script[0]) {
      states, inputs := AfterIsRun(maxBatch, s, script[1..]);
    } else {
      var a, t := script[0], Step(maxBatch, s, script[0]);
      var rest, more := [t], [];
      if a.Closes? {
        ClosedStays(maxBatch, t, script[1..]);
      } else {
        rest, more := AfterIsRun(maxBatch, t, script[1..]);
      }
      StepThenRun(Next(maxBatch), s, a, rest, more);
      states, inputs := [s] + rest, [a] + more;
      assert inputs[1..] == more;
    }
  }

  class ChangeScheduler {
    const maxBatch: nat
    var pending: seq<ChangeEvent>
    var deadline: bool
    var emitted: seq<Batch>
    ghost var consumed: seq<ChangeEvent>
    ghost var flushed: seq<seq<ChangeEvent>>

    constructor (maxBatch: nat)
      ensures this.maxBatch == maxBatch && Abstract(false) == START
    {
      this.maxBatch := maxBatch;
      pending, deadline, emitted, consumed, flushed := [], false, [], [], [];
    }

    ghost function Abstract(closed: bool): State
      reads this
    {
      State(pending, deadline, emitted, closed, consumed, flushed)
    }

    /** Release what is pending. */
    method Release()
      modifies this
      ensures Abstract(false) == Flush(old(Abstract(false)))
    {
      var batch := Coalesce(pending);
      if batch != [] {
        emitted := emitted + [batch];
      }
      flushed := flushed + [pending];
      pending, deadline := [], false;
    }

    /** Run until the input closes or the script ends. */
    method Run(script: seq<Input>) returns (closed: bool)
      modifies this
      ensures Abstract(closed) == After(maxBatch, old(Abstract(false)), script)
    {
      ghost var start := Abstract(false);
      closed := false;
      assert script[0..] == script;
      for i := 0 to |script|
        invariant After(maxBatch, start, script) == After(maxBatch, Abstract(closed), script[i..])
      {
        assert script[i..][0] == script[i] && script[i..][1..] == script[i + 1..];
        if !closed {
          match script[i] {
            case Arrives(e) =>
              pending := pending + [e];
              consumed := consumed + [e];
              if deadline && maxBatch > 0 && |pending| >= maxBatch {
                Release();
              } else {
                deadline := true;
              }
            case TimerFires =>
              if deadline {
                Release();
              }
            case Closes =>
              if deadline {
                Release();
              }
              closed := true;
          }
        }
      }
    }
  }
}
