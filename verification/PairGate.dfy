/**
 The device pairing gate. Requests and operator decisions run concurrently; each takes the gate's
 lock for one or two short sections and touches the device table in between. A step of the model is
 one such section.
 */
module PairGate {
  import opened Basics
  import opened Runs

  datatype PairPolicy = AutoAccept | Confirm

  datatype Pending = Pending(id: DeviceId, cert: Option<Cert>)

  datatype Admission = Accept | Hold | Deny

  /** The device table: a row per id, with a certificate once one has been recorded. */
  type Devices = map<DeviceId, Option<Cert>>

  /** Insert or update a row; a missing certificate leaves the recorded one in place. */
  function Upsert(devices: Devices, id: DeviceId, cert: Option<Cert>): Devices {
    devices[id := if cert.Some? then cert else if id in devices then devices[id] else None]
  }

  /** Authorization goes by certificate, not by the id a device claims. */
  predicate Known(devices: Devices, cert: Option<Cert>) {
    cert.Some? && exists id :: id in devices && devices[id] == cert
  }

  datatype Gate = Gate(policy: PairPolicy, pending: seq<Pending>, denied: set<DeviceId>, devices: Devices)

  function Without(pending: seq<Pending>, id: DeviceId): seq<Pending> {
    if pending == [] then []
    else
      var rest := Without(pending[..|pending| - 1], id);
      if pending[|pending| - 1].id == id then rest else rest + [pending[|pending| - 1]]
  }

  function PendingIds(pending: seq<Pending>): seq<DeviceId> {
    seq(|pending|, i requires 0 <= i < |pending| => pending[i].id)
  }

  /** The certificate captured for a held device, if it is held. */
  function Captured(pending: seq<Pending>, id: DeviceId): Option<Cert> {
    if pending == [] then None
    else if pending[0].id == id then pending[0].cert
    else Captured(pending[1..], id)
  }

  /** The locked section of a request from a device that is not known. */
  function Queue(g: Gate, id: DeviceId, cert: Option<Cert>): (Gate, Admission) {
    if id in g.denied then (g, Deny)
    else if id in PendingIds(g.pending) then (g, Hold)
    else (g.(pending := g.pending + [Pending(id, cert)]), Hold)
  }

  function Reject(g: Gate, id: DeviceId): Gate {
    g.(pending := Without(g.pending, id), denied := g.denied + {id})
  }

  // ----- concurrent calls

  /** How far a call in progress has come. */
  datatype Call =
    | Checked(id: DeviceId, cert: Option<Cert>)      // a request that was not known when looked up
    | Admitted(id: DeviceId, cert: Option<Cert>)     // a request answered with Accept, not yet stored
    | Approving(id: DeviceId, cert: Option<Cert>)    // an approval that has read the captured certificate
    | Stored(id: DeviceId)                           // an approval that has written the device row

  datatype System = System(
    gate: Gate,
    calls: map<nat, Call>,
    granted: set<Cert>,       // certificates captured by an approval
    accepted: set<Cert>)      // certificates whose request was answered with Accept

  datatype Action =
    | LookUp(call: nat, id: DeviceId, cert: Option<Cert>)
    | Enqueue(call: nat)
    | StorePaired(call: nat)
    | ApproveRead(call: nat, id: DeviceId)
    | ApproveStore(call: nat)
    | ApproveEnd(call: nat)
    | DenyPairing(id: DeviceId)

  predicate Enabled(idOf: Cert -> DeviceId, s: System, a: Action) {
    match a
    // the id of a request is the one derived from its certificate whenever it has one
    case LookUp(n, id, cert) => n !in s.calls && (cert.Some? ==> id == idOf(cert.value))
    case Enqueue(n) => n in s.calls && s.calls[n].Checked?
    case StorePaired(n) => n in s.calls && s.calls[n].Admitted?
    case ApproveRead(n, _) => n !in s.calls
    case ApproveStore(n) => n in s.calls && s.calls[n].Approving?
    case ApproveEnd(n) => n in s.calls && s.calls[n].Stored?
    case DenyPairing(_) => true
  }

  function Certs(cert: Option<Cert>): set<Cert> {
    if cert.Some? then {cert.value} else {}
  }

  function Apply(idOf: Cert -> DeviceId, s: System, a: Action): System
    requires Enabled(idOf, s, a)
  {
    var g := s.gate;
    match a
    case LookUp(n, id, cert) =>
      if Known(g.devices, cert) || g.policy == AutoAccept
      then s.(calls := s.calls[n := Admitted(id, cert)], accepted := s.accepted + Certs(cert))
      else s.(calls := s.calls[n := Checked(id, cert)])
    case Enqueue(n) => s.(gate := Queue(g, s.calls[n].id, s.calls[n].cert).0, calls := s.calls - {n})
    case StorePaired(n) =>
      s.(gate := g.(devices := Upsert(g.devices, s.calls[n].id, s.calls[n].cert)), calls := s.calls - {n})
    case ApproveRead(n, id) =>
      var cert := Captured(g.pending, id);
      s.(calls := s.calls[n := Approving(id, cert)], granted := s.granted + Certs(cert))
    case ApproveStore(n) =>
      s.(gate := g.(devices := Upsert(g.devices, s.calls[n].id, s.calls[n].cert)),
         calls := s.calls[n := Stored(s.calls[n].id)])
    case ApproveEnd(n) => s.(gate := g.(pending := Without(g.pending, s.calls[n].id)), calls := s.calls - {n})
    case DenyPairing(id) => s.(gate := Reject(g, id))
  }

  ghost function Next(idOf: Cert -> DeviceId): (System, Action, System) -> bool {
    (s, a, s') => Enabled(idOf, s, a) && s' == Apply(idOf, s, a)
  }

  /** The answer a request gets if it enters the locked section now. */
  function Answer(g: Gate, id: DeviceId, cert: Option<Cert>): Admission {
    if Known(g.devices, cert) || g.policy == AutoAccept then Accept else Queue(g, id, cert).1
  }

  ghost predicate Fresh(s: System, devices: Devices) {
    s == System(Gate(Confirm, [], {}, devices), map[], {}, {})
  }

  // ----- small facts about the pending list

  lemma {:induction false} WithoutMembers(pending: seq<Pending>, id: DeviceId)
    ensures forall p :: p in Without(pending, id) <==> p in pending && p.id != id
    ensures Distinct(PendingIds(pending)) ==> Distinct(PendingIds(Without(pending, id)))
  {
    if pending != [] {
      var n := |pending| - 1;
      var a, last := pending[..n], pending[n];
      WithoutMembers(a, id);
      assert pending == a + [last];
      assert PendingIds(pending) == PendingIds(a) + [last.id];
      if Distinct(PendingIds(pending)) {
        DistinctSnoc(PendingIds(a), last.id);
        var rest := Without(a, id);
        assert last.id !in PendingIds(rest) by {
          assert forall i :: 0 <= i < |rest| ==> rest[i] in rest;
          assert forall i :: 0 <= i < n ==> PendingIds(a)[i] == a[i].id;
        }
        SnocDistinct(PendingIds(rest), last.id);
        assert PendingIds(rest + [last]) == PendingIds(rest) + [last.id];
      }
    }
  }

  lemma {:induction false} DistinctSnoc(a: seq<DeviceId>, x: DeviceId)
    requires Distinct(a + [x])
    ensures Distinct(a) && x !in a
  {
    var s := a + [x];
    assert s[..|a|] == a;
    assert forall i {:trigger a[..i]} :: 0 <= i < |a| ==> a[..i] == s[..i];
  }

  lemma {:induction false} SnocDistinct(a: seq<DeviceId>, x: DeviceId)
    requires Distinct(a) && x !in a
    ensures Distinct(a + [x])
  {
    var s := a + [x];
    assert forall i {:trigger s[..i]} :: 0 <= i <= |a| ==> s[..i] == a[..i];
  }

  lemma {:induction false} CapturedIsPending(pending: seq<Pending>, id: DeviceId)
    ensures Captured(pending, id).Some? ==> Pending(id, Captured(pending, id)) in pending
    ensures id !in PendingIds(pending) ==> Captured(pending, id).None?
  {
    if pending != [] {
      CapturedIsPending(pending[1..], id);
      assert PendingIds(pending) == [pending[0].id] + PendingIds(pending[1..]);
    }
  }

  /** What is captured for a held device is the certificate it is held with. */
  lemma {:induction false} CapturedIsHeldWith(pending: seq<Pending>, id: DeviceId, cert: Option<Cert>)
    requires Distinct(PendingIds(pending)) && Pending(id, cert) in pending
    ensures Captured(pending, id) == cert
  {
    var ids, rest := PendingIds(pending), pending[1..];
    assert ids == [pending[0].id] + PendingIds(rest);
    var i :| 0 <= i < |pending| && pending[i] == Pending(id, cert);
    FirstIsAlone(ids, i);
    if pending[0].id != id {
      DistinctTail(ids);
      assert ids[1..] == PendingIds(rest) && rest[i - 1] == pending[i];
      CapturedIsHeldWith(rest, id, cert);
    }
  }

  lemma {:induction false} FirstIsAlone(ids: seq<DeviceId>, i: nat)
    requires Distinct(ids) && i < |ids|
    ensures i > 0 ==> ids[i] != ids[0]
  {
    if i > 0 {
      assert ids[..i][0] == ids[0];
    }
  }

  lemma {:induction false} DistinctTail(ids: seq<DeviceId>)
    requires Distinct(ids) && ids != []
    ensures Distinct(ids[1..])
  {
    var tail := ids[1..];
    forall i {:trigger tail[..i]} | 0 <= i < |tail| ensures tail[i] !in tail[..i] {
      assert ids[..i + 1] == [ids[0]] + tail[..i] && ids[i + 1] !in ids[..i + 1];
    }
  }

  // ----- the invariant

  /** The certificate of every request, held device and stored row belongs to its id or was there before. */
  ghost predicate OwnId(idOf: Cert -> DeviceId, id: DeviceId, cert: Option<Cert>) {
    cert.Some? ==> id == idOf(cert.value)
  }

  ghost predicate GateInv(idOf: Cert -> DeviceId, initial: Devices, s: System) {
    && s.gate.policy == Confirm
    && Distinct(PendingIds(s.gate.pending))
    && (forall p :: p in s.gate.pending ==> p.id !in s.gate.denied && OwnId(idOf, p.id, p.cert))
    && (forall n :: n in s.calls && !s.calls[n].Stored? ==> OwnId(idOf, s.calls[n].id, s.calls[n].cert))
    // every certificate that is stored, or about to be, was there at the start or was granted
    && (forall c :: Known(s.gate.devices, Some(c)) ==> Authorized(initial, s, c))
    && (forall c :: c in s.accepted ==> Authorized(initial, s, c))
    && (forall n, c :: n in s.calls && (s.calls[n].Admitted? || s.calls[n].Approving?) && s.calls[n].cert == Some(c) ==>
          Authorized(initial, s, c))
  }

  ghost predicate Authorized(initial: Devices, s: System, c: Cert) {
    Known(initial, Some(c)) || c in s.granted
  }

  lemma {:induction false} UpsertKnown(devices: Devices, id: DeviceId, cert: Option<Cert>, c: Cert)
    requires Known(Upsert(devices, id, cert), Some(c))
    ensures Known(devices, Some(c)) || cert == Some(c)
  {
    var d := Upsert(devices, id, cert);
    var k :| k in d && d[k] == Some(c);
    if k != id || cert.None? {
      assert k in devices && devices[k] == Some(c);
    }
  }

  lemma {:induction false} EnqueueKeepsInv(idOf: Cert -> DeviceId, initial: Devices, s: System, n: nat)
    requires GateInv(idOf, initial, s) && Enabled(idOf, s, Enqueue(n))
    ensures GateInv(idOf, initial, Apply(idOf, s, Enqueue(n)))
  {
    var g, id := s.gate, s.calls[n].id;
    if id !in g.denied && id !in PendingIds(g.pending) {
      SnocDistinct(PendingIds(g.pending), id);
      var p := Pending(id, s.calls[n].cert);
      assert PendingIds(g.pending + [p]) == PendingIds(g.pending) + [id];
    }
  }

  lemma {:induction false} StoreKeepsInv(idOf: Cert -> DeviceId, initial: Devices, s: System, a: Action)
    requires GateInv(idOf, initial, s) && Enabled(idOf, s, a) && (a.StorePaired? || a.ApproveStore?)
    ensures GateInv(idOf, initial, Apply(idOf, s, a))
  {
    var s' := Apply(idOf, s, a);
    var k := s.calls[a.call];
    forall c | Known(s'.gate.devices, Some(c)) ensures Authorized(initial, s', c) {
      UpsertKnown(s.gate.devices, k.id, k.cert, c);
    }
  }

  lemma {:induction false} ApproveReadKeepsInv(idOf: Cert -> DeviceId, initial: Devices, s: System, n: nat,
                                               id: DeviceId)
    requires GateInv(idOf, initial, s) && Enabled(idOf, s, ApproveRead(n, id))
    ensures GateInv(idOf, initial, Apply(idOf, s, ApproveRead(n, id)))
  {
    CapturedIsPending(s.gate.pending, id);
  }

  lemma {:induction false} StepKeepsInv(idOf: Cert -> DeviceId, initial: Devices, s: System, a: Action)
    requires GateInv(idOf, initial, s) && Enabled(idOf, s, a)
    ensures GateInv(idOf, initial, Apply(idOf, s, a))
  {
    match a {
      case LookUp(_, _, _) =>
      case Enqueue(n) => EnqueueKeepsInv(idOf, initial, s, n);
      case StorePaired(_) => StoreKeepsInv(idOf, initial, s, a);
      case ApproveRead(n, id) => ApproveReadKeepsInv(idOf, initial, s, n, id);
      case ApproveStore(_) => StoreKeepsInv(idOf, initial, s, a);
      case ApproveEnd(n) => WithoutMembers(s.gate.pending, s.calls[n].id);
      case DenyPairing(id) => WithoutMembers(s.gate.pending, id);
    }
  }

  /**
   Over every interleaving of requests, approvals and denials: pending ids are distinct and never
   denied, and a certificate is accepted only if it was in the table from the start or an approval
   read it while it was pending.
   */
  lemma {:induction false} AcceptedOnlyIfApproved(idOf: Cert -> DeviceId, initial: Devices, states: seq<System>,
                                                  actions: seq<Action>, i: nat)
    requires IsRun(Next(idOf), states, actions) && Fresh(states[0], initial) && i < |states|
    ensures GateInv(idOf, initial, states[i])
    ensures forall c :: c in states[i].accepted ==> Known(initial, Some(c)) || c in states[i].granted
  {
    var inv := s => GateInv(idOf, initial, s);
    forall s, a, s' | inv(s) && Next(idOf)(s, a, s') ensures inv(s') {
      StepKeepsInv(idOf, initial, s, a);
    }
    InvariantAlongRun(Next(idOf), inv, states, actions, i);
  }

  /** A grant happens only while the device is held with that very certificate. */
  lemma {:induction false} GrantedOnlyWhilePending(idOf: Cert -> DeviceId, s: System, a: Action, c: Cert)
    requires Enabled(idOf, s, a) && c !in s.granted && c in Apply(idOf, s, a).granted
    ensures a.ApproveRead? && Pending(a.id, Some(c)) in s.gate.pending
  {
    CapturedIsPending(s.gate.pending, if a.ApproveRead? then a.id else "");
  }

  /** A request without a certificate is known to nobody, so under confirmation it is never accepted. */
  lemma {:induction false} NoCertificateNoEntry(g: Gate, id: DeviceId)
    ensures !Known(g.devices, None)
    ensures g.policy == Confirm ==> Answer(g, id, None) != Accept
  {
  }

  /** An approval that runs undisturbed: the device is released, and its certificate is accepted from then on. */
  lemma {:induction false} ApprovalAdmits(idOf: Cert -> DeviceId, s: System, n: nat, id: DeviceId, c: Cert)
    requires n !in s.calls && Captured(s.gate.pending, id) == Some(c)
    ensures var read := Apply(idOf, s, ApproveRead(n, id));
      var done := Apply(idOf, Apply(idOf, read, ApproveStore(n)), ApproveEnd(n));
      && Answer(done.gate, id, Some(c)) == Accept && id !in PendingIds(done.gate.pending)
      && (forall p: Pending :: p.id != id ==> (p in done.gate.pending <==> p in s.gate.pending))
      && done.gate.denied == s.gate.denied && done.calls == s.calls
  {
    var read := Apply(idOf, s, ApproveRead(n, id));
    var stored := Apply(idOf, read, ApproveStore(n));
    var done := Apply(idOf, stored, ApproveEnd(n));
    assert stored.gate.devices[id] == Some(c);
    WithoutMembers(s.gate.pending, id);
    NotHeld(Without(s.gate.pending, id), id);
    assert done.calls == s.calls;
  }

  // ----- when a denial is for life

  /** A call under way is about to store the certificate: an accepted request or an approval that has read it. */
  ghost predicate Storing(s: System, c: Cert) {
    exists n :: n in s.calls && (s.calls[n].Admitted? || s.calls[n].Approving?) && s.calls[n].cert == Some(c)
  }

  /** The device is denied, its certificate is not stored, and no call under way is about to store it. */
  ghost predicate Shut(idOf: Cert -> DeviceId, s: System, c: Cert) {
    && s.gate.policy == Confirm
    && idOf(c) in s.gate.denied
    && !Known(s.gate.devices, Some(c))
    && !Storing(s, c)
    && (forall p :: p in s.gate.pending ==> p.cert != Some(c))
  }

  /** Denying a device whose certificate is not stored, with no call storing it under way, shuts it out. */
  lemma {:induction false} DenyShuts(idOf: Cert -> DeviceId, initial: Devices, s: System, c: Cert)
    requires GateInv(idOf, initial, s) && !Known(s.gate.devices, Some(c)) && !Storing(s, c)
    ensures Shut(idOf, Apply(idOf, s, DenyPairing(idOf(c))), c)
  {
    WithoutMembers(s.gate.pending, idOf(c));
  }

  lemma {:induction false} StepKeepsShut(idOf: Cert -> DeviceId, initial: Devices, s: System, a: Action, c: Cert)
    requires GateInv(idOf, initial, s) && Shut(idOf, s, c) && Enabled(idOf, s, a)
    ensures Shut(idOf, Apply(idOf, s, a), c)
  {
    match a {
      case LookUp(_, _, _) =>
      case Enqueue(_) =>
      case StorePaired(n) => NotStored(s.gate.devices, s.calls[n].id, s.calls[n].cert, c);
      case ApproveRead(_, id) => CapturedIsPending(s.gate.pending, id);
      case ApproveStore(n) => NotStored(s.gate.devices, s.calls[n].id, s.calls[n].cert, c);
      case ApproveEnd(n) => WithoutMembers(s.gate.pending, s.calls[n].id);
      case DenyPairing(id) => WithoutMembers(s.gate.pending, id);
    }
  }

  lemma {:induction false} NotStored(devices: Devices, id: DeviceId, cert: Option<Cert>, c: Cert)
    requires !Known(devices, Some(c)) && cert != Some(c)
    ensures !Known(Upsert(devices, id, cert), Some(c))
  {
    if Known(Upsert(devices, id, cert), Some(c)) {
      UpsertKnown(devices, id, cert, c);
    }
  }

  /** In every state of every continuation the device is answered Deny. */
  ghost predicate AlwaysDenied(idOf: Cert -> DeviceId, s: System, c: Cert) {
    forall states: seq<System>, actions: seq<Action>, i: nat ::
      IsRun(Next(idOf), states, actions) && states[0] == s && i < |states| ==>
        Answer(states[i].gate, idOf(c), Some(c)) == Deny
  }

  /**
   Once shut out, a device is answered Deny in every later state, whatever requests, approvals and
   denials come in between.
   */
  lemma {:induction false} DeniedForLife(idOf: Cert -> DeviceId, initial: Devices, s: System, c: Cert)
    requires GateInv(idOf, initial, s) && Shut(idOf, s, c)
    ensures AlwaysDenied(idOf, s, c)
  {
    var inv := t => GateInv(idOf, initial, t) && Shut(idOf, t, c);
    forall t, a, t' | inv(t) && Next(idOf)(t, a, t') ensures inv(t') {
      StepKeepsInv(idOf, initial, t, a);
      StepKeepsShut(idOf, initial, t, a, c);
    }
    forall states: seq<System>, actions: seq<Action>, i: nat
      | IsRun(Next(idOf), states, actions) && states[0] == s && i < |states|
      ensures Answer(states[i].gate, idOf(c), Some(c)) == Deny
    {
      InvariantAlongRun(Next(idOf), inv, states, actions, i);
    }
  }

  /**
   From every state in which the certificate is stored, or a call under way is about to store it, a
   denial is overtaken: at once, or as soon as that call has stored it.
   */
  lemma {:induction false} DenialOvertaken(idOf: Cert -> DeviceId, s: System, c: Cert)
    returns (states: seq<System>, actions: seq<Action>)
    requires Known(s.gate.devices, Some(c)) || Storing(s, c)
    ensures IsRun(Next(idOf), states, actions) && states[0] == Apply(idOf, s, DenyPairing(idOf(c)))
    ensures Answer(states[|actions|].gate, idOf(c), Some(c)) == Accept
  {
    var denied := Apply(idOf, s, DenyPairing(idOf(c)));
    states, actions := [denied], [];
    if !Known(s.gate.devices, Some(c)) {
      var n :| n in s.calls && (s.calls[n].Admitted? || s.calls[n].Approving?) && s.calls[n].cert == Some(c);
      var store := if s.calls[n].Admitted? then StorePaired(n) else ApproveStore(n);
      var stored := Apply(idOf, denied, store);
      assert stored.gate.devices[s.calls[n].id] == Some(c);
      states, actions := [denied, stored], [store];
    }
  }

  /**
   In any run, a denial is final, in every state of every continuation, exactly when at the moment of
   the denial the certificate is not stored and no accepted request or approval under way carries it.
   */
  lemma {:induction false} DenialIsFinalIff(idOf: Cert -> DeviceId, initial: Devices, states: seq<System>,
                                            actions: seq<Action>, i: nat, c: Cert)
    requires IsRun(Next(idOf), states, actions) && Fresh(states[0], initial)
    requires i < |actions| && actions[i] == DenyPairing(idOf(c))
    ensures AlwaysDenied(idOf, states[i + 1], c) <==>
      !Known(states[i].gate.devices, Some(c)) && !Storing(states[i], c)
  {
    AcceptedOnlyIfApproved(idOf, initial, states, actions, i);
    assert Next(idOf)(states[i], actions[i], states[i + 1]);
    DenialIsFinalAt(idOf, initial, states[i], c);
  }

  lemma {:induction false} DenialIsFinalAt(idOf: Cert -> DeviceId, initial: Devices, s: System, c: Cert)
    requires GateInv(idOf, initial, s)
    ensures AlwaysDenied(idOf, Apply(idOf, s, DenyPairing(idOf(c))), c) <==>
      !Known(s.gate.devices, Some(c)) && !Storing(s, c)
  {
    var denied := Apply(idOf, s, DenyPairing(idOf(c)));
    if !Known(s.gate.devices, Some(c)) && !Storing(s, c) {
      DenyShuts(idOf, initial, s, c);
      StepKeepsInv(idOf, initial, s, DenyPairing(idOf(c)));
      DeniedForLife(idOf, initial, denied, c);
    } else {
      var states, actions := DenialOvertaken(idOf, s, c);
      assert Answer(states[|actions|].gate, idOf(c), Some(c)) != Deny;
    }
  }

  /** The second case arises: an approval reads the certificate of a held device just before the denial. */
  lemma {:induction false} ApprovalCanOvertakeDenial(idOf: Cert -> DeviceId, c: Cert, s: System)
    requires Fresh(s, map[])
    ensures var id := idOf(c);
      var held := Apply(idOf, Apply(idOf, s, LookUp(0, id, Some(c))), Enqueue(0));
      var read := Apply(idOf, held, ApproveRead(0, id));
      Storing(read, c) && !AlwaysDenied(idOf, Apply(idOf, read, DenyPairing(id)), c)
  {
    var id := idOf(c);
    var held := Apply(idOf, Apply(idOf, s, LookUp(0, id, Some(c))), Enqueue(0));
    assert held.gate.pending == [Pending(id, Some(c))];
    var read := Apply(idOf, held, ApproveRead(0, id));
    assert read.calls[0] == Approving(id, Some(c));
    var states, actions := DenialOvertaken(idOf, read, c);
    assert Answer(states[|actions|].gate, id, Some(c)) != Deny;
  }

  // ----- the gate as an object

  /** Held devices are held once and are not denied. */
  ghost predicate Orderly(g: Gate) {
    && Distinct(PendingIds(g.pending))
    && forall p :: p in g.pending ==> p.id !in g.denied
  }

  lemma {:induction false} QueueKeepsOrder(g: Gate, id: DeviceId, cert: Option<Cert>)
    requires Orderly(g)
    ensures Orderly(Queue(g, id, cert).0)
    ensures Queue(g, id, cert).1 == Hold ==> id in PendingIds(Queue(g, id, cert).0.pending)
  {
    if id !in g.denied && id !in PendingIds(g.pending) {
      SnocDistinct(PendingIds(g.pending), id);
      assert PendingIds(g.pending + [Pending(id, cert)]) == PendingIds(g.pending) + [id];
    }
  }

  lemma {:induction false} NotHeld(pending: seq<Pending>, id: DeviceId)
    requires forall p :: p in pending ==> p.id != id
    ensures id !in PendingIds(pending)
  {
    assert forall i :: 0 <= i < |pending| ==> pending[i] in pending;
  }

  class DeviceGate {
    const policy: PairPolicy
    var pending: seq<Pending>
    var denied: set<DeviceId>
    var devices: Devices

    ghost predicate Valid()
      reads this
    {
      Orderly(Abstract())
    }

    constructor (policy: PairPolicy, devices: Devices)
      ensures Valid() && Abstract() == Gate(policy, [], {}, devices)
    {
      this.policy, this.devices := policy, devices;
      pending, denied := [], {};
    }

    ghost function Abstract(): Gate
      reads this
    {
      Gate(policy, pending, denied, devices)
    }

    /** Walk the rows in some order and compare certificates. */
    method IsKnown(cert: Option<Cert>) returns (known: bool)
      ensures known <==> Known(devices, cert)
    {
      if cert.None? {
        return false;
      }
      var todo := devices.Keys;
      while todo != {}
        invariant todo <= devices.Keys
        invariant forall id :: id in devices.Keys - todo ==> devices[id] != cert
      {
        var id :| id in todo;
        if devices[id] == cert {
          return true;
        }
        todo := todo - {id};
      }
      return false;
    }

    /** Whether a device is held. */
    method IsHeld(id: DeviceId) returns (held: bool)
      ensures held <==> id in PendingIds(pending)
    {
      for i := 0 to |pending|
        invariant id !in PendingIds(pending)[..i]
      {
        assert PendingIds(pending)[..i + 1] == PendingIds(pending)[..i] + [pending[i].id];
        if pending[i].id == id {
          assert PendingIds(pending)[i] == id;
          return true;
        }
      }
      assert PendingIds(pending)[..|pending|] == PendingIds(pending);
      return false;
    }

    /** The certificate captured for the first held entry of a device. */
    method FindCaptured(id: DeviceId) returns (cert: Option<Cert>)
      ensures cert == Captured(pending, id)
    {
      assert pending[0..] == pending;
      for i := 0 to |pending|
        invariant Captured(pending, id) == Captured(pending[i..], id)
      {
        assert pending[i..][0] == pending[i] && pending[i..][1..] == pending[i + 1..];
        if pending[i].id == id {
          return pending[i].cert;
        }
      }
      return None;
    }

    /** Keep every held entry but those of one device. */
    method Retain(id: DeviceId)
      modifies this`pending
      ensures pending == Without(old(pending), id)
    {
      var kept: seq<Pending> := [];
      for i := 0 to |pending|
        invariant kept == Without(pending[..i], id)
      {
        assert pending[..i + 1][..i] == pending[..i];
        if pending[i].id != id {
          kept := kept + [pending[i]];
        }
      }
      assert pending[..|pending|] == pending;
      pending := kept;
    }

    /**
     The answer to a request. A device on hold is in the list afterwards, once, and neither known nor
     denied; accepting and denying change nothing.
     */
    method Admit(id: DeviceId, cert: Option<Cert>) returns (answer: Admission)
      requires Valid()
      modifies this`pending
      ensures Valid()
      ensures answer == Accept <==> Known(devices, cert) || policy == AutoAccept
      ensures answer == Deny <==> !Known(devices, cert) && policy == Confirm && id in denied
      ensures answer == Hold ==> id in PendingIds(pending) && old(pending) <= pending
      ensures answer != Hold || id in PendingIds(old(pending)) ==> pending == old(pending)
      ensures Abstract() == if answer == Accept then old(Abstract()) else Queue(old(Abstract()), id, cert).0
    {
      var known := IsKnown(cert);
      if known || policy == AutoAccept {
        return Accept;
      }
      QueueKeepsOrder(Abstract(), id, cert);
      if id in denied {
        return Deny;
      }
      var held := IsHeld(id);
      if !held {
        pending := pending + [Pending(id, cert)];
      }
      return Hold;
    }

    /**
     An approval releases the device and no other. If a certificate was captured it is known from now
     on, so that the device's next request is accepted, even if the device had been denied; no
     certificate becomes unknown except one recorded for the device before.
     */
    method ApprovePairing(id: DeviceId)
      requires Valid()
      modifies this`pending, this`devices
      ensures Valid()
      ensures id !in PendingIds(pending) && forall p: Pending :: p.id != id ==> (p in pending <==> p in old(pending))
      ensures forall c :: Pending(id, Some(c)) in old(pending) ==> Answer(Abstract(), id, Some(c)) == Accept
      ensures (forall c :: Pending(id, Some(c)) !in old(pending)) && id in old(devices) ==> devices == old(devices)
      ensures id in devices && forall other :: other != id ==>
        (other in devices <==> other in old(devices)) && (other in devices ==> devices[other] == old(devices)[other])
    {
      var cert := FindCaptured(id);
      CapturedIsPending(pending, id);
      forall c | Pending(id, Some(c)) in pending ensures cert == Some(c) {
        CapturedIsHeldWith(pending, id, Some(c));
      }
      WithoutMembers(pending, id);
      NotHeld(Without(pending, id), id);
      devices := Upsert(devices, id, cert);
      assert devices[id] == cert || cert.None?;
      Retain(id);
    }

    /** A denial releases the device and no other; requests of its id are denied unless their certificate is known. */
    method DenyPairing(id: DeviceId)
      requires Valid()
      modifies this`pending, this`denied
      ensures Valid()
      ensures id !in PendingIds(pending) && forall p: Pending :: p.id != id ==> (p in pending <==> p in old(pending))
      ensures forall cert ::
        Answer(Abstract(), id, cert) == if Known(devices, cert) || policy == AutoAccept then Accept else Deny
      ensures denied == old(denied) + {id}
    {
      WithoutMembers(pending, id);
      NotHeld(Without(pending, id), id);
      Retain(id);
      denied := denied + {id};
    }
  }
}
