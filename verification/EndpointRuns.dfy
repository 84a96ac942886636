/**
 The receive loops of an end as runs of the session: what a loop does is a sequence of receive steps,
 it reads on exactly as long as it should, and what it writes arrives in the other side's inbox.
 */
module EndpointRuns {
  import opened Basics
  import opened Runs
  import opened Session
  import opened Endpoint

  /** Messages read one after the other: the states in between and what each was answered with. */
  ghost predicate Reading(hash: Bytes -> Digest, xs: seq<Peer>, outs: seq<seq<Message>>, inbox: seq<Message>,
                          clock: seq<U64>) {
    && |xs| == |outs| + 1 && |outs| <= |inbox| == |clock|
    && forall k :: 0 <= k < |outs| ==> (xs[k + 1], outs[k]) == Receive(hash, xs[k], inbox[k], clock[k])
  }

  ghost function Flat(outs: seq<seq<Message>>): seq<Message> {
    if outs == [] then [] else outs[0] + Flat(outs[1..])
  }

  lemma {:induction false} ReadingMore(hash: Bytes -> Digest, x: Peer, xs: seq<Peer>, outs: seq<seq<Message>>,
                                       inbox: seq<Message>, clock: seq<U64>)
    requires inbox != [] && |clock| == |inbox| && Reading(hash, xs, outs, inbox[1..], clock[1..])
    requires xs[0] == Receive(hash, x, inbox[0], clock[0]).0
    ensures Reading(hash, [x] + xs, [Receive(hash, x, inbox[0], clock[0]).1] + outs, inbox, clock)
  {
    var all, answers := [x] + xs, [Receive(hash, x, inbox[0], clock[0]).1] + outs;
    forall k | 0 <= k < |answers| ensures (all[k + 1], answers[k]) == Receive(hash, all[k], inbox[k], clock[k]) {
      if k > 0 {
        assert (xs[k], outs[k - 1]) == Receive(hash, xs[k - 1], inbox[1..][k - 1], clock[1..][k - 1]);
      }
    }
  }

  // ----- the client's loop

  /** A side that has neither failed nor reached its exit condition. */
  predicate Waiting(x: Peer) {
    !x.failed && !ExitReady(x)
  }

  /** The client reads exactly while it waits and something is there. */
  lemma {:induction false} DrainReads(hash: Bytes -> Digest, x: Peer, inbox: seq<Message>, clock: seq<U64>,
                                      sent: seq<Message>)
    returns (xs: seq<Peer>, outs: seq<seq<Message>>)
    requires |clock| == |inbox|
    ensures Reading(hash, xs, outs, inbox, clock) && xs[0] == x
    ensures Drain(hash, x, inbox, clock, sent) == (xs[|outs|], sent + Flat(outs))
    ensures forall k :: 0 <= k < |outs| ==> Waiting(xs[k])
    ensures |outs| == |inbox| || !Waiting(xs[|outs|])
    decreases |inbox|
  {
    if x.failed || ExitReady(x) || inbox == [] {
      xs, outs := [x], [];
      assert sent + [] == sent;
    } else {
      var (x', out) := Receive(hash, x, inbox[0], clock[0]);
      var ys, rest := DrainReads(hash, x', inbox[1..], clock[1..], sent + out);
      ReadingMore(hash, x, ys, rest, inbox, clock);
      FlatMore(sent, out, rest);
      xs, outs := [x] + ys, [out] + rest;
    }
  }

  // ----- the server's loop

  /** The server stops after a message: it has reached its exit condition, and the message was not refused. */
  predicate Stops(x: Peer, answer: seq<Message>) {
    ExitReady(x) && !Refused(answer)
  }

  /** It has not stopped before the last message. */
  ghost predicate ReadsOn(xs: seq<Peer>, outs: seq<seq<Message>>)
    requires |xs| == |outs| + 1
  {
    forall k :: 0 < k < |outs| ==> !Stops(xs[k], outs[k - 1])
  }

  lemma {:induction false} ReadsOnMore(x: Peer, out: seq<Message>, xs: seq<Peer>, outs: seq<seq<Message>>)
    requires |xs| == |outs| + 1 && ReadsOn(xs, outs) && (outs != [] ==> !Stops(xs[0], out))
    ensures ReadsOn([x] + xs, [out] + outs)
  {
    var all, answers := [x] + xs, [out] + outs;
    forall k | 0 < k < |answers| ensures !Stops(all[k], answers[k - 1]) {
      if k > 1 {
        assert !Stops(xs[k - 1], outs[k - 1 - 1]);
      }
    }
  }

  /** Nothing is left to read, or the side has failed, or it has stopped after the last message. */
  ghost predicate HasEnded(xs: seq<Peer>, outs: seq<seq<Message>>, n: nat)
    requires |xs| == |outs| + 1
  {
    |outs| == n || xs[|outs|].failed || (outs != [] && Stops(xs[|outs|], outs[|outs| - 1]))
  }

  lemma {:induction false} HasEndedMore(x: Peer, out: seq<Message>, xs: seq<Peer>, outs: seq<seq<Message>>, n: nat)
    requires |xs| == |outs| + 1 && HasEnded(xs, outs, n)
    ensures HasEnded([x] + xs, [out] + outs, n + 1)
  {
    var all, answers := [x] + xs, [out] + outs;
    assert all[|answers|] == xs[|outs|] && (outs != [] ==> answers[|answers| - 1] == outs[|outs| - 1]);
  }

  /** The server reads at least one message, and then exactly as long as it neither fails nor stops. */
  lemma {:induction false} ServerDrainReads(hash: Bytes -> Digest, x: Peer, inbox: seq<Message>, clock: seq<U64>,
                                            sent: seq<Message>)
    returns (xs: seq<Peer>, outs: seq<seq<Message>>)
    requires |clock| == |inbox|
    ensures Reading(hash, xs, outs, inbox, clock) && xs[0] == x
    ensures ServerDrain(hash, x, inbox, clock, sent) == (xs[|outs|], sent + Flat(outs))
    ensures forall k :: 0 <= k < |outs| ==> !xs[k].failed
    ensures ReadsOn(xs, outs)
    ensures HasEnded(xs, outs, |inbox|)
    decreases |inbox|
  {
    if x.failed || inbox == [] {
      xs, outs := [x], [];
      assert sent + [] == sent;
    } else {
      var (x', out) := Receive(hash, x, inbox[0], clock[0]);
      var ys, rest := [x'], [];
      if Stops(x', out) {
        StopsHere(hash, x, inbox, clock, sent);
      } else {
        ys, rest := ServerDrainReads(hash, x', inbox[1..], clock[1..], sent + out);
        HasEndedMore(x, out, ys, rest, |inbox| - 1);
      }
      assert ServerDrain(hash, x, inbox, clock, sent) == (ys[|rest|], (sent + out) + Flat(rest));
      ReadingMore(hash, x, ys, rest, inbox, clock);
      ReadsOnMore(x, out, ys, rest);
      FlatMore(sent, out, rest);
      xs, outs := [x] + ys, [out] + rest;
    }
  }

  lemma {:induction false} StopsHere(hash: Bytes -> Digest, x: Peer, inbox: seq<Message>, clock: seq<U64>,
                                     sent: seq<Message>)
    requires |clock| == |inbox| && inbox != [] && !x.failed
    requires var (x', out) := Receive(hash, x, inbox[0], clock[0]); Stops(x', out)
    ensures var (x', out) := Receive(hash, x, inbox[0], clock[0]);
      ServerDrain(hash, x, inbox, clock, sent) == (x', (sent + out) + Flat([]))
  {
    var (x', out) := Receive(hash, x, inbox[0], clock[0]);
    assert (sent + out) + [] == sent + out;
  }

  lemma {:induction false} FlatMore(sent: seq<Message>, out: seq<Message>, rest: seq<seq<Message>>)
    ensures (sent + out) + Flat(rest) == sent + Flat([out] + rest)
  {
    assert ([out] + rest)[1..] == rest;
  }

  // ----- as a run of the session

  /** Every backup that is made on the way gets a new name. */
  ghost predicate FreshAlong(hash: Bytes -> Digest, universe: set<Path>, xs: seq<Peer>, inbox: seq<Message>,
                             clock: seq<U64>, n: nat)
    requires n <= |xs| && n <= |inbox| && n <= |clock|
  {
    forall k :: 0 <= k < n ==> FreshBackup(hash, universe, xs[k], inbox[k], clock[k])
  }

  /**
   Reading messages while waiting is a run of receive actions of that side alone: it ends in the state
   reached, with those messages gone from its inbox and the answers in the other side's.
   */
  lemma {:induction false} ReadingIsRun(hash: Bytes -> Digest, universe: set<Path>, s: System, r: Role, xs: seq<Peer>,
                                        outs: seq<seq<Message>>, clock: seq<U64>)
    returns (states: seq<System>, actions: seq<Action>)
    requires Reading(hash, xs, outs, Inbox(s, r), clock) && xs[0] == Side(s, r) && Side(s, r).tx.sentinelSent
    requires forall k :: 0 <= k < |outs| ==> Waiting(xs[k])
    requires FreshAlong(hash, universe, xs, Inbox(s, r), clock, |outs|)
    ensures Run(hash, universe, states, actions) && states[0] == s && |actions| == |outs|
    ensures forall k :: 0 <= k < |actions| ==> actions[k] == Receives(r, clock[k])
    ensures states[|actions|] == Update(s, r, xs[|outs|], Inbox(s, r)[|outs|..], Flat(outs))
    decreases |outs|
  {
    if outs == [] {
      states, actions := [s], [];
      assert Inbox(s, r)[0..] == Inbox(s, r);
      assert Inbox(s, Other(r)) + [] == Inbox(s, Other(r));
    } else {
      var inbox, a := Inbox(s, r), Receives(r, clock[0]);
      assert (xs[1], outs[0]) == Receive(hash, xs[0], inbox[0], clock[0]);
      assert FreshBackup(hash, universe, xs[0], inbox[0], clock[0]) && Waiting(xs[0]);
      ReadStep(hash, universe, s, r, clock[0]);
      var s' := Apply(hash, universe, s, a);
      TailReading(hash, universe, xs, outs, inbox, clock);
      var rest, acts := ReadingIsRun(hash, universe, s', r, xs[1..], outs[1..], clock[1..]);
      StepThenRun(Next(hash, universe), s, a, rest, acts);
      states, actions := [s] + rest, [a] + acts;
      UpdateTwice(s, r, xs[1], inbox[1..], outs[0], xs[|outs|], inbox[|outs|..], Flat(outs[1..]));
      assert inbox[1..][|outs| - 1..] == inbox[|outs|..];
    }
  }

  lemma {:induction false} ReadStep(hash: Bytes -> Digest, universe: set<Path>, s: System, r: Role, ts: U64)
    requires Waiting(Side(s, r)) && Side(s, r).tx.sentinelSent && Inbox(s, r) != []
    requires FreshBackup(hash, universe, Side(s, r), Inbox(s, r)[0], ts)
    ensures Enabled(hash, universe, s, Receives(r, ts))
    ensures var s', (x', out) := Apply(hash, universe, s, Receives(r, ts)), Receive(hash, Side(s, r), Inbox(s, r)[0],
      ts);
      && s' == Update(s, r, x', Inbox(s, r)[1..], out)
      && Side(s', r) == x' && x'.tx.sentinelSent && Inbox(s', r) == Inbox(s, r)[1..]
  {
    SameSender(hash, Side(s, r), Inbox(s, r)[0], ts);
  }

  lemma {:induction false} SameSender(hash: Bytes -> Digest, x: Peer, m: Message, ts: U64)
    ensures Receive(hash, x, m, ts).0.tx == x.tx && Receive(hash, x, m, ts).0.role == x.role
  {
  }

  lemma {:induction false} TailReading(hash: Bytes -> Digest, universe: set<Path>, xs: seq<Peer>,
                                       outs: seq<seq<Message>>, inbox: seq<Message>, clock: seq<U64>)
    requires outs != [] && Reading(hash, xs, outs, inbox, clock)
    requires forall k :: 0 <= k < |outs| ==> Waiting(xs[k])
    requires FreshAlong(hash, universe, xs, inbox, clock, |outs|)
    ensures Reading(hash, xs[1..], outs[1..], inbox[1..], clock[1..])
    ensures forall k :: 0 <= k < |outs[1..]| ==> Waiting(xs[1..][k])
    ensures FreshAlong(hash, universe, xs[1..], inbox[1..], clock[1..], |outs| - 1)
  {
    forall k | 0 <= k < |outs| - 1
      ensures (xs[1..][k + 1], outs[1..][k]) == Receive(hash, xs[1..][k], inbox[1..][k], clock[1..][k])
      ensures FreshBackup(hash, universe, xs[1..][k], inbox[1..][k], clock[1..][k])
    {
      assert (xs[k + 2], outs[k + 1]) == Receive(hash, xs[k + 1], inbox[k + 1], clock[k + 1]);
      assert FreshBackup(hash, universe, xs[k + 1], inbox[k + 1], clock[k + 1]);
    }
  }

  lemma {:induction false} UpdateTwice(s: System, r: Role, x: Peer, inbox: seq<Message>, a: seq<Message>, y: Peer,
                                       inbox': seq<Message>, b: seq<Message>)
    ensures Update(Update(s, r, x, inbox, a), r, y, inbox', b) == Update(s, r, y, inbox', a + b)
  {
    assert Inbox(s, Other(r)) + a + b == Inbox(s, Other(r)) + (a + b);
  }

  /** However far a side reads from here with these time stamps, every backup gets a new name. */
  ghost predicate FreshClock(hash: Bytes -> Digest, universe: set<Path>, x: Peer, inbox: seq<Message>,
                             clock: seq<U64>) {
    forall xs: seq<Peer>, outs: seq<seq<Message>> ::
      Reading(hash, xs, outs, inbox, clock) && xs[0] == x ==> FreshAlong(hash, universe, xs, inbox, clock, |outs|)
  }

  /**
   What the client's loop makes of an inbox is a run of the session. It reads until it has failed,
   reached its exit condition or emptied the inbox; its state is the side's state at the end of the
   run, and its replies are what the run has added to the other side's inbox.
   */
  lemma {:induction false} ClientLoopIsRun(hash: Bytes -> Digest, universe: set<Path>, s: System, clock: seq<U64>)
    returns (states: seq<System>, actions: seq<Action>)
    requires |clock| == |s.toClient| && s.client.tx.sentinelSent
    requires FreshClock(hash, universe, s.client, s.toClient, clock)
    ensures Run(hash, universe, states, actions) && states[0] == s && |actions| <= |clock|
    ensures forall k :: 0 <= k < |actions| ==> actions[k] == Receives(Client, clock[k])
    ensures var (x, replies) := Drain(hash, s.client, s.toClient, clock, []);
      && states[|actions|] == System(x, s.server, s.toServer + replies, s.toClient[|actions|..])
      && (|actions| == |s.toClient| || !Waiting(x))
  {
    var xs, outs := DrainReads(hash, s.client, s.toClient, clock, []);
    assert [] + Flat(outs) == Flat(outs);
    states, actions := ReadingIsRun(hash, universe, s, Client, xs, outs, clock);
  }

  /** The same for the server's loop, unless it refuses a file. */
  lemma {:induction false} ServerLoopIsRun(hash: Bytes -> Digest, universe: set<Path>, s: System, clock: seq<U64>)
    returns (states: seq<System>, actions: seq<Action>)
    requires |clock| == |s.toServer| && s.server.tx.sentinelSent && !ExitReady(s.server)
    requires !Refused(ServerDrain(hash, s.server, s.toServer, clock, []).1)
    requires FreshClock(hash, universe, s.server, s.toServer, clock)
    ensures Run(hash, universe, states, actions) && states[0] == s && |actions| <= |clock|
    ensures forall k :: 0 <= k < |actions| ==> actions[k] == Receives(Server, clock[k])
    ensures var (x, replies) := ServerDrain(hash, s.server, s.toServer, clock, []);
      && states[|actions|] == System(s.client, x, s.toServer[|actions|..], s.toClient + replies)
      && (|actions| == |s.toServer| || !Waiting(x))
  {
    ServerDrainIsDrain(hash, s.server, s.toServer, clock, []);
    var xs, outs := DrainReads(hash, s.server, s.toServer, clock, []);
    assert [] + Flat(outs) == Flat(outs);
    states, actions := ReadingIsRun(hash, universe, s, Server, xs, outs, clock);
  }
}
