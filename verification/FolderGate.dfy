/**
 The folder pairing gate, for calls that run one at a time: requests from authenticated peers, and
 the owner's approvals and denials, with the tables an approval writes.
 */
module FolderGate {
  import opened Basics
  import opened Runs
  import PairGate

  type Guid = string

  /** A share as seen by one device. */
  type Share = (DeviceId, Guid)

  datatype Request = Request(device: DeviceId, guid: Guid, name: string)

  datatype Grant = Grant(guid: Guid, name: string, mode: string, remotePath: Option<Path>)

  datatype FolderRow = FolderRow(localPath: Path, name: string, device: DeviceId, guid: Guid)

  datatype PairRow = PairRow(mode: string, remotePath: Option<Path>, enabled: bool)

  datatype Outcome = Held | Approved(grant: Grant) | Rejected

  datatype FolderState = FolderState(
    pending: seq<Request>,
    approved: map<Share, Grant>,
    denied: set<Share>,
    devices: PairGate.Devices,
    folders: seq<FolderRow>,              // row ids are positions
    pairs: map<(nat, DeviceId), PairRow>)

  function Key(r: Request): Share {
    (r.device, r.guid)
  }

  predicate Holds(pending: seq<Request>, k: Share) {
    exists i :: 0 <= i < |pending| && Key(pending[i]) == k
  }

  function Release(pending: seq<Request>, k: Share): seq<Request> {
    if pending == [] then []
    else
      var n := |pending| - 1;
      var rest := Release(pending[..n], k);
      if Key(pending[n]) == k then rest else rest + [pending[n]]
  }

  /** The first row for a folder, if there is one. */
  function RowFor(folders: seq<FolderRow>, guid: Guid): (r: Option<nat>)
    ensures r.Some? ==> r.value < |folders| && folders[r.value].guid == guid
    ensures r.None? ==> forall i :: 0 <= i < |folders| ==> folders[i].guid != guid
  {
    if folders == [] then None
    else
      var n := |folders| - 1;
      match RowFor(folders[..n], guid)
      case Some(i) => Some(i)
      case None => if folders[n].guid == guid then Some(n) else None
  }

  function EnsureFolder(folders: seq<FolderRow>, guid: Guid, localPath: Path, name: string,
                        owner: DeviceId): (seq<FolderRow>, nat) {
    match RowFor(folders, guid)
    case Some(i) => (folders, i)
    case None => (folders + [FolderRow(localPath, name, owner, guid)], |folders|)
  }

  /** Attach a device to a folder; a missing remote path leaves the recorded one in place. */
  function Attach(pairs: map<(nat, DeviceId), PairRow>, folder: nat, device: DeviceId,
                  remotePath: Option<Path>): map<(nat, DeviceId), PairRow> {
    var recorded := if (folder, device) in pairs then pairs[(folder, device)].remotePath else None;
    pairs[(folder, device) := PairRow("bidirectional", if remotePath.Some? then remotePath else recorded, true)]
  }

  function Approve(g: FolderState, owner: DeviceId, k: Share, name: string, localPath: Path,
                   remotePath: Option<Path>): (FolderState, Grant) {
    var grant := Grant(k.1, name, "bidirectional", remotePath);
    var (folders, row) := EnsureFolder(g.folders, k.1, localPath, name, owner);
    (g.(pending := Release(g.pending, k),
        approved := g.approved[k := grant],
        devices := PairGate.Upsert(g.devices, k.0, None),
        folders := folders,
        pairs := Attach(g.pairs, row, k.0, remotePath)),
     grant)
  }

  /** A device that completed device pairing has a certificate on record. */
  predicate Trusted(devices: PairGate.Devices, id: DeviceId) {
    id in devices && devices[id].Some?
  }

  function Ask(g: FolderState, r: Request, owner: DeviceId, localPath: Path): (FolderState, Outcome) {
    var k := Key(r);
    if k in g.approved then (g, Approved(g.approved[k]))
    else if k in g.denied then (g, Rejected)
    else if Trusted(g.devices, r.device) then
      var (g', grant) := Approve(g, owner, k, r.name, localPath, Some(localPath));
      (g', Approved(grant))
    else if Holds(g.pending, k) then (g, Held)
    else (g.(pending := g.pending + [r]), Held)
  }

  function Refuse(g: FolderState, k: Share): FolderState {
    g.(pending := Release(g.pending, k), denied := g.denied + {k})
  }

  // ----- runs

  datatype Action =
    | Asks(request: Request, owner: DeviceId, localPath: Path)
    | Approves(owner: DeviceId, share: Share, name: string, localPath: Path, remotePath: Option<Path>)
    | Denies(share: Share)

  function Apply(g: FolderState, a: Action): FolderState {
    match a
    case Asks(r, owner, localPath) => Ask(g, r, owner, localPath).0
    case Approves(owner, k, name, localPath, remotePath) => Approve(g, owner, k, name, localPath, remotePath).0
    case Denies(k) => Refuse(g, k)
  }

  ghost function Next(): (FolderState, Action, FolderState) -> bool {
    (g, a, g') => g' == Apply(g, a)
  }

  // ----- the invariant

  /** The device is attached, enabled, to the folder row that the share's folder resolves to. */
  ghost predicate Attached(g: FolderState, k: Share) {
    var row := RowFor(g.folders, k.1);
    row.Some? && (row.value, k.0) in g.pairs &&
    g.pairs[(row.value, k.0)].mode == "bidirectional" && g.pairs[(row.value, k.0)].enabled
  }

  ghost predicate GateInv(g: FolderState) {
    && (forall i, j :: 0 <= i < j < |g.pending| ==> Key(g.pending[i]) != Key(g.pending[j]))
    && (forall i :: 0 <= i < |g.pending| ==> Key(g.pending[i]) !in g.approved && Key(g.pending[i]) !in g.denied)
    && (forall k :: k in g.approved ==> g.approved[k].guid == k.1 && Attached(g, k))
  }

  lemma {:induction false} ReleaseMembers(pending: seq<Request>, k: Share)
    ensures forall r :: r in Release(pending, k) <==> r in pending && Key(r) != k
    ensures (forall i, j :: 0 <= i < j < |pending| ==> Key(pending[i]) != Key(pending[j])) ==>
            (forall i, j :: 0 <= i < j < |Release(pending, k)| ==>
              Key(Release(pending, k)[i]) != Key(Release(pending, k)[j]))
  {
    if pending != [] {
      var n := |pending| - 1;
      var a, last := pending[..n], pending[n];
      ReleaseMembers(a, k);
      assert pending == a + [last];
      var rest := Release(a, k);
      assert forall i :: 0 <= i < |rest| ==> rest[i] in rest;
      if forall i, j :: 0 <= i < j < |pending| ==> Key(pending[i]) != Key(pending[j]) {
        assert forall r :: r in a ==> Key(r) != Key(last);
      }
    }
  }

  lemma {:induction false} RowForAppend(folders: seq<FolderRow>, row: FolderRow, guid: Guid)
    ensures RowFor(folders, guid).Some? ==> RowFor(folders + [row], guid) == RowFor(folders, guid)
    ensures RowFor(folders, guid).None? && row.guid == guid ==> RowFor(folders + [row], guid) == Some(|folders|)
  {
    assert (folders + [row])[..|folders|] == folders;
  }

  lemma {:induction false} ApproveAttaches(g: FolderState, owner: DeviceId, k: Share, name: string, localPath: Path,
                                           remotePath: Option<Path>)
    ensures Attached(Approve(g, owner, k, name, localPath, remotePath).0, k)
    ensures forall other :: Attached(g, other) ==> Attached(Approve(g, owner, k, name, localPath, remotePath).0, other)
  {
    var row := FolderRow(localPath, name, owner, k.1);
    forall guid { RowForAppend(g.folders, row, guid); }
  }

  lemma {:induction false} ApproveKeepsInv(g: FolderState, owner: DeviceId, k: Share, name: string, localPath: Path,
                                           remotePath: Option<Path>)
    requires GateInv(g)
    ensures GateInv(Approve(g, owner, k, name, localPath, remotePath).0)
  {
    var g' := Approve(g, owner, k, name, localPath, remotePath).0;
    ReleaseMembers(g.pending, k);
    ApproveAttaches(g, owner, k, name, localPath, remotePath);
    forall i | 0 <= i < |g'.pending| ensures Key(g'.pending[i]) !in g'.approved && Key(g'.pending[i]) !in g'.denied {
      assert g'.pending[i] in g'.pending;
    }
    forall other | other in g'.approved ensures g'.approved[other].guid == other.1 && Attached(g', other) {
    }
  }

  lemma {:induction false} StepKeepsInv(g: FolderState, a: Action)
    requires GateInv(g)
    ensures GateInv(Apply(g, a))
  {
    match a {
      case Asks(r, owner, localPath) =>
        if Key(r) !in g.approved && Key(r) !in g.denied && Trusted(g.devices, r.device) {
          ApproveKeepsInv(g, owner, Key(r), r.name, localPath, Some(localPath));
        }
      case Approves(owner, k, name, localPath, remotePath) => ApproveKeepsInv(g, owner, k, name, localPath, remotePath);
      case Denies(k) =>
        var g' := Refuse(g, k);
        ReleaseMembers(g.pending, k);
        forall i | 0 <= i < |g'.pending|
          ensures Key(g'.pending[i]) !in g'.approved && Key(g'.pending[i]) !in g'.denied
        {
          assert g'.pending[i] in g'.pending;
        }
    }
  }

  /**
   In every run from an empty gate: held requests have distinct shares, none of them approved or
   denied, and every approved device is attached to the folder row its share resolves to.
   */
  lemma {:induction false} FolderGateInv(gates: seq<FolderState>, actions: seq<Action>, i: nat)
    requires IsRun(Next(), gates, actions) && i < |gates|
    requires gates[0].pending == [] && gates[0].approved == map[]
    ensures GateInv(gates[i])
  {
    var inv := g => GateInv(g);
    forall g, a, g' | inv(g) && Next()(g, a, g') ensures inv(g') {
      StepKeepsInv(g, a);
    }
    InvariantAlongRun(Next(), inv, gates, actions, i);
  }

  /** Approvals and denials are never forgotten, and a denied share becomes approved only by an approval. */
  lemma {:induction false} StepKeepsShares(g: FolderState, a: Action, k: Share)
    ensures k in g.approved ==> k in Apply(g, a).approved
    ensures k in g.denied ==> k in Apply(g, a).denied
    ensures k in g.denied && k !in g.approved && (a.Approves? ==> a.share != k) ==> k !in Apply(g, a).approved
  {
    match a {
      case Asks(r, owner, localPath) =>
        assert Ask(g, r, owner, localPath).0.approved ==
          if Key(r) !in g.approved && Key(r) !in g.denied && Trusted(g.devices, r.device)
          then g.approved[Key(r) := Grant(r.guid, r.name, "bidirectional", Some(localPath))] else g.approved;
      case Approves(owner, share, name, localPath, remotePath) =>
        assert Approve(g, owner, share, name, localPath, remotePath).0.approved ==
          g.approved[share := Grant(share.1, name, "bidirectional", remotePath)];
      case Denies(_) =>
    }
  }

  /** Approval is for life: an approved share answers Approved in every later state, even after a denial. */
  lemma {:induction false} ApprovedForLife(gates: seq<FolderState>, actions: seq<Action>, i: nat, j: nat, r: Request,
                                           owner: DeviceId, localPath: Path)
    requires IsRun(Next(), gates, actions) && i <= j < |gates| && Key(r) in gates[i].approved
    ensures Ask(gates[j], r, owner, localPath).1.Approved?
  {
    var inv := (g: FolderState) => Key(r) in g.approved;
    forall g, a, g' | inv(g) && Next()(g, a, g') ensures inv(g') {
      StepKeepsShares(g, a, Key(r));
    }
    RunSuffix(Next(), gates, actions, i);
    InvariantAlongRun(Next(), inv, gates[i..], actions[i..], j - i);
  }

  /** Until the owner approves it, a denied share answers Rejected, also to a trusted device. */
  lemma {:induction false} DeniedUntilApproved(gates: seq<FolderState>, actions: seq<Action>, i: nat, j: nat,
                                               r: Request, owner: DeviceId, localPath: Path)
    requires IsRun(Next(), gates, actions) && i <= j < |gates|
    requires Key(r) in gates[i].denied && Key(r) !in gates[i].approved
    requires forall k :: i <= k < j && actions[k].Approves? ==> actions[k].share != Key(r)
    ensures Ask(gates[j], r, owner, localPath).1.Rejected?
  {
    var refused := (g: FolderState) => Key(r) in g.denied && Key(r) !in g.approved;
    var others := (g: FolderState, a: Action, g': FolderState) =>
      Next()(g, a, g') && (a.Approves? ==> a.share != Key(r));
    forall g, a, g' | refused(g) && others(g, a, g') ensures refused(g') {
      StepKeepsShares(g, a, Key(r));
    }
    var part, acts := gates[i..j + 1], actions[i..j];
    forall k | 0 <= k < |acts| ensures others(part[k], acts[k], part[k + 1]) {
      assert Next()(gates[i + k], actions[i + k], gates[i + k + 1]);
    }
    InvariantAlongRun(others, refused, part, acts, j - i);
  }

  /**
   What an approval writes: a new folder row with the given path, name and owner if there is none for
   the folder yet, and the row of the pair, in which a missing remote path leaves the recorded one.
   */
  lemma {:induction false} ApproveWrites(g: FolderState, owner: DeviceId, k: Share, name: string, localPath: Path,
                                         remotePath: Option<Path>)
    ensures var (g', grant) := Approve(g, owner, k, name, localPath, remotePath);
      && grant.guid == k.1 && grant.name == name && grant.mode == "bidirectional" && grant.remotePath == remotePath
      && (RowFor(g.folders, k.1).Some? ==> g'.folders == g.folders)
      && (RowFor(g.folders, k.1).None? ==>
            && |g'.folders| == |g.folders| + 1 && g.folders <= g'.folders
            && var row := g'.folders[|g.folders|];
               row.localPath == localPath && row.name == name && row.device == owner && row.guid == k.1)
  {
  }

  /** The row of a pair: enabled, in both directions, with the remote path that is given or recorded. */
  lemma {:induction false} AttachWrites(pairs: map<(nat, DeviceId), PairRow>, folder: nat, device: DeviceId,
                                        remotePath: Option<Path>)
    ensures var after, key := Attach(pairs, folder, device, remotePath), (folder, device);
      && key in after && after[key].mode == "bidirectional" && after[key].enabled
      && (remotePath.Some? ==> after[key].remotePath == remotePath)
      && (remotePath.None? && key in pairs ==> after[key].remotePath == pairs[key].remotePath)
      && after - {key} == pairs - {key}
  {
  }

  // ----- who gets approved

  /** Certificates on record do not change here, so a device is trusted throughout a run or not at all. */
  lemma {:induction false} TrustIsFixed(gates: seq<FolderState>, actions: seq<Action>, i: nat, id: DeviceId)
    requires IsRun(Next(), gates, actions) && i < |gates|
    ensures Trusted(gates[i].devices, id) <==> Trusted(gates[0].devices, id)
  {
    if i > 0 {
      TrustIsFixed(gates, actions, i - 1, id);
      assert Next()(gates[i - 1], actions[i - 1], gates[i - 1 + 1]);
      StepKeepsTrust(gates[i - 1], actions[i - 1], id);
    }
  }

  lemma {:induction false} StepKeepsTrust(g: FolderState, a: Action, id: DeviceId)
    ensures Trusted(Apply(g, a).devices, id) <==> Trusted(g.devices, id)
  {
    match a {
      case Asks(r, owner, localPath) => ApproveKeepsTrust(g, owner, Key(r), r.name, localPath, Some(localPath));
      case Approves(owner, k, name, localPath, remotePath) => ApproveKeepsTrust(g, owner, k, name, localPath,
        remotePath);
      case Denies(_) =>
    }
  }

  /** The action approves the share: the owner says so, or a trusted device asks for a share that is not denied. */
  ghost predicate Grants(g: FolderState, a: Action, k: Share) {
    || (a.Approves? && a.share == k)
    || (a.Asks? && a.request.device == k.0 && a.request.guid == k.1 && Trusted(g.devices, k.0) && k !in g.denied)
  }

  lemma {:induction false} StepApprovesIff(g: FolderState, a: Action, k: Share)
    ensures k in Apply(g, a).approved <==> k in g.approved || Grants(g, a, k)
  {
    match a {
      case Asks(r, owner, localPath) =>
        assert Ask(g, r, owner, localPath).0.approved ==
          if Key(r) !in g.approved && Key(r) !in g.denied && Trusted(g.devices, r.device)
          then g.approved[Key(r) := Grant(r.guid, r.name, "bidirectional", Some(localPath))] else g.approved;
      case Approves(_, _, _, _, _) =>
      case Denies(_) =>
    }
  }

  /**
   In any run from an empty gate a share is approved exactly when the owner has approved it, or its
   device, with a certificate on record, has asked for it while it was not denied.
   */
  lemma {:induction false} ApprovedIff(gates: seq<FolderState>, actions: seq<Action>, i: nat, k: Share)
    requires IsRun(Next(), gates, actions) && i < |gates| && gates[0].approved == map[]
    ensures k in gates[i].approved <==> exists j :: 0 <= j < i && Grants(gates[j], actions[j], k)
  {
    if i > 0 {
      ApprovedIff(gates, actions, i - 1, k);
      assert Next()(gates[i - 1], actions[i - 1], gates[i - 1 + 1]);
      StepApprovesIff(gates[i - 1], actions[i - 1], k);
    }
  }

  // ----- the gate as an object

  /** Releasing one share leaves every other share held as before. */
  lemma {:induction false} ReleaseHolds(pending: seq<Request>, k: Share)
    ensures forall j :: Holds(Release(pending, k), j) <==> j != k && Holds(pending, j)
  {
    ReleaseMembers(pending, k);
    var rest := Release(pending, k);
    forall j ensures Holds(rest, j) <==> j != k && Holds(pending, j) {
      if Holds(rest, j) {
        var i :| 0 <= i < |rest| && Key(rest[i]) == j;
        assert rest[i] in rest && rest[i] in pending;
      }
      if j != k && Holds(pending, j) {
        var i :| 0 <= i < |pending| && Key(pending[i]) == j;
        assert pending[i] in pending && pending[i] in rest;
      }
    }
  }

  /** Approving a folder records no certificate and loses none. */
  lemma {:induction false} ApproveKeepsTrust(g: FolderState, owner: DeviceId, k: Share, name: string, localPath: Path,
                                             remotePath: Option<Path>)
    ensures forall id :: Trusted(Approve(g, owner, k, name, localPath, remotePath).0.devices, id) <==>
      Trusted(g.devices, id)
  {
    assert Approve(g, owner, k, name, localPath, remotePath).0.devices == PairGate.Upsert(g.devices, k.0, None);
  }

  class FolderPairGate {
    var pending: seq<Request>
    var approved: map<Share, Grant>
    var denied: set<Share>
    var devices: PairGate.Devices
    var folders: seq<FolderRow>
    var pairs: map<(nat, DeviceId), PairRow>

    ghost predicate Valid()
      reads this
    {
      GateInv(Abstract())
    }

    constructor (devices: PairGate.Devices, folders: seq<FolderRow>, pairs: map<(nat, DeviceId), PairRow>)
      ensures Valid() && Abstract() == FolderState([], map[], {}, devices, folders, pairs)
    {
      pending, approved, denied := [], map[], {};
      this.devices, this.folders, this.pairs := devices, folders, pairs;
    }

    ghost function Abstract(): FolderState
      reads this
    {
      FolderState(pending, approved, denied, devices, folders, pairs)
    }

    /** Keep every held request but those for one share. */
    method Retain(k: Share)
      modifies this`pending
      ensures pending == Release(old(pending), k)
    {
      var kept: seq<Request> := [];
      for i := 0 to |pending|
        invariant kept == Release(pending[..i], k)
      {
        assert pending[..i + 1][..i] == pending[..i];
        if pending[i].device != k.0 || pending[i].guid != k.1 {
          kept := kept + [pending[i]];
        }
      }
      assert pending[..|pending|] == pending;
      pending := kept;
    }

    /** Whether a share is held. */
    method IsHeld(k: Share) returns (held: bool)
      ensures held <==> Holds(pending, k)
    {
      for i := 0 to |pending|
        invariant forall j :: 0 <= j < i ==> Key(pending[j]) != k
      {
        if pending[i].device == k.0 && pending[i].guid == k.1 {
          assert Key(pending[i]) == k;
          return true;
        }
      }
      return false;
    }

    /**
     An approval releases the share and no other, records the grant beside all earlier ones, and leaves
     the device attached to the row of the folder; nobody is detached and no certificate changes.
     */
    method ApproveFolderPair(owner: DeviceId, device: DeviceId, guid: Guid, name: string, localPath: Path,
                             remotePath: Option<Path>) returns (grant: Grant)
      requires Valid()
      modifies this
      ensures Valid()
      ensures forall j :: Holds(pending, j) <==> j != (device, guid) && Holds(old(pending), j)
      ensures approved == old(approved)[(device, guid) := grant] && denied == old(denied)
      ensures grant.guid == guid && grant.name == name && grant.mode == "bidirectional" &&
        grant.remotePath == remotePath
      ensures Attached(Abstract(), (device, guid))
      ensures forall k :: Attached(old(Abstract()), k) ==> Attached(Abstract(), k)
      ensures forall id :: Trusted(devices, id) <==> Trusted(old(devices), id)
      ensures (Abstract(), grant) == Approve(old(Abstract()), owner, (device, guid), name, localPath, remotePath)
    {
      ApproveKeepsInv(Abstract(), owner, (device, guid), name, localPath, remotePath);
      ApproveAttaches(Abstract(), owner, (device, guid), name, localPath, remotePath);
      ApproveKeepsTrust(Abstract(), owner, (device, guid), name, localPath, remotePath);
      ReleaseHolds(pending, (device, guid));
      grant := Grant(guid, name, "bidirectional", remotePath);
      Retain((device, guid));
      approved := approved[(device, guid) := grant];
      devices := PairGate.Upsert(devices, device, None);
      var (rows, row) := EnsureFolder(folders, guid, localPath, name, owner);
      folders := rows;
      pairs := Attach(pairs, row, device, remotePath);
    }

    /**
     The answer to a request: approved shares with a grant and an attached device, denied shares unless
     approved, and held shares that are neither, are in the list and come from untrusted devices.
     */
    method RequestFolderPair(r: Request, owner: DeviceId, localPath: Path) returns (outcome: Outcome)
      requires Valid()
      modifies this
      ensures Valid()
      ensures outcome.Approved? ==>
        Key(r) in approved && outcome.grant == approved[Key(r)] && outcome.grant.guid == r.guid &&
          Attached(Abstract(), Key(r))
      ensures outcome.Approved? <==>
        Key(r) in old(approved) || (Key(r) !in old(denied) && Trusted(old(devices), r.device))
      ensures outcome.Approved? && Key(r) in old(approved) ==> Abstract() == old(Abstract())
      ensures outcome.Approved? && Key(r) !in old(approved) ==>
        outcome.grant.name == r.name && outcome.grant.remotePath == Some(localPath)
      ensures outcome.Rejected? <==> Key(r) in old(denied) && Key(r) !in old(approved)
      ensures outcome.Rejected? ==> Abstract() == old(Abstract())
      ensures outcome.Held? <==>
        Key(r) !in old(approved) && Key(r) !in old(denied) && !Trusted(old(devices), r.device)
      ensures outcome.Held? ==> pending == if Holds(old(pending), Key(r)) then old(pending) else old(pending) + [r]
      ensures outcome.Held? ==>
        Holds(pending, Key(r)) && Key(r) !in approved && Key(r) !in denied && !Trusted(devices, r.device)
      ensures (Abstract(), outcome) == Ask(old(Abstract()), r, owner, localPath)
    {
      StepKeepsInv(Abstract(), Asks(r, owner, localPath));
      var k := Key(r);
      if k in approved {
        return Approved(approved[k]);
      }
      if k in denied {
        return Rejected;
      }
      if Trusted(devices, r.device) {
        var grant := ApproveFolderPair(owner, r.device, r.guid, r.name, localPath, Some(localPath));
        return Approved(grant);
      }
      var held := IsHeld(k);
      if !held {
        pending := pending + [r];
        assert Key(pending[|pending| - 1]) == k;
      }
      return Held;
    }

    /**
     A denial releases the share and no other. From then on requests for it are rejected, unless it had
     been approved before, in which case they are still approved.
     */
    method DenyFolderPair(device: DeviceId, guid: Guid)
      requires Valid()
      modifies this`pending, this`denied
      ensures Valid()
      ensures forall j :: Holds(pending, j) <==> j != (device, guid) && Holds(old(pending), j)
      ensures forall r, owner, localPath :: Key(r) == (device, guid) ==>
        Ask(Abstract(), r, owner, localPath).1 ==
          if Key(r) in approved then Approved(approved[Key(r)]) else Rejected
      ensures denied == old(denied) + {(device, guid)}
    {
      StepKeepsInv(Abstract(), Denies((device, guid)));
      ReleaseHolds(pending, (device, guid));
      Retain((device, guid));
      denied := denied + {(device, guid)};
    }
  }
}
