/**
 The identity migration: device rows recorded under old ids are folded onto the id derived from
 their certificate, references are re-pointed, and the leftover rows are deleted.
 */
module IdentityMerge {
  import opened Basics

  datatype Row = Row(cert: Option<Cert>, name: string)

  /** The devices table, by primary key. */
  type Devices = map<DeviceId, Row>

  type Remap = map<DeviceId, DeviceId>

  /** A column of device ids in another table; `key` is the rest of the row. */
  datatype Ref = Ref(key: string, device: DeviceId)

  datatype Table = Table(refs: seq<Ref>, unique: bool)

  // ----- which ids are folded onto which

  ghost predicate CarriesCert(rows: Devices, id: DeviceId) {
    id in rows && rows[id].cert.Some?
  }

  /** The row's certificate belongs to another id; our own row is left alone here. */
  ghost predicate Miskeyed(idOf: Cert -> DeviceId, rows: Devices, own: DeviceId, id: DeviceId) {
    CarriesCert(rows, id) && idOf(rows[id].cert.value) != id && id != own
  }

  ghost predicate IsLegacy(legacy: Option<DeviceId>, own: DeviceId, id: DeviceId) {
    legacy == Some(id) && id != own
  }

  /** `peer` is the only certificate-carrying row with this name. */
  ghost predicate OnlyCertRow(rows: Devices, name: string, peer: DeviceId) {
    && CarriesCert(rows, peer) && rows[peer].name == name
    && forall q :: CarriesCert(rows, q) && rows[q].name == name ==> q == peer
  }

  /** A row without certificate that shares its name with exactly one certificate-carrying row, not ours. */
  ghost predicate IsStub(idOf: Cert -> DeviceId, rows: Devices, own: DeviceId, legacy: Option<DeviceId>,
                         id: DeviceId, peer: DeviceId) {
    && id in rows && rows[id].cert.None? && !IsLegacy(legacy, own, id)
    && OnlyCertRow(rows, rows[id].name, peer)
    && idOf(rows[peer].cert.value) != own
  }

  /** The remap, stated id by id. */
  ghost predicate IsRemap(idOf: Cert -> DeviceId, rows: Devices, own: DeviceId, legacy: Option<DeviceId>, m: Remap) {
    && (forall id :: id in m <==>
          Miskeyed(idOf, rows, own, id) || IsLegacy(legacy, own, id) ||
            exists peer :: IsStub(idOf, rows, own, legacy, id, peer))
    && (forall id :: Miskeyed(idOf, rows, own, id) ==> id in m && m[id] == idOf(rows[id].cert.value))
    && (forall id :: IsLegacy(legacy, own, id) && !Miskeyed(idOf, rows, own, id) ==> id in m && m[id] == own)
    && (forall id, peer :: IsStub(idOf, rows, own, legacy, id, peer) ==>
      id in m && m[id] == idOf(rows[peer].cert.value))
  }

  /**
   The remap in plain terms. A row whose certificate has another derived id is folded onto that id,
   unless it is our own row. The old id of this device is folded onto its new one. A row without a
   certificate is folded onto the derived id of the one row with a certificate and the same name, if
   there is exactly one and it is not ours. No other id is folded.
   */
  lemma {:induction false} RemapInPlainTerms(idOf: Cert -> DeviceId, rows: Devices, own: DeviceId,
                                             legacy: Option<DeviceId>, m: Remap, id: DeviceId)
    requires IsRemap(idOf, rows, own, legacy, m)
    ensures id in rows && rows[id].cert.Some? && id != own && idOf(rows[id].cert.value) != id ==>
      id in m && m[id] == idOf(rows[id].cert.value)
    ensures id in rows && rows[id].cert.Some? && (id == own || idOf(rows[id].cert.value) == id) ==>
      (id in m <==> legacy == Some(id) && id != own)
    ensures legacy == Some(id) && id != own && (id !in rows || rows[id].cert.None?) ==> id in m && m[id] == own
    ensures legacy != Some(id) && id !in rows ==> id !in m
    ensures legacy != Some(id) && id in rows && rows[id].cert.None? ==>
      (id in m <==> exists peer :: OnlyCertRow(rows, rows[id].name, peer) && idOf(rows[peer].cert.value) != own)
    ensures forall peer :: NamesakeOf(idOf, rows, own, legacy, id, peer) ==>
      id in m && m[id] == idOf(rows[peer].cert.value)
  {
    forall peer | NamesakeOf(idOf, rows, own, legacy, id, peer) ensures id in m &&
      m[id] == idOf(rows[peer].cert.value) {
      assert IsStub(idOf, rows, own, legacy, id, peer);
    }
  }

  /** `peer` is the one row with a certificate that has the name of the row `id`, which has none; it is not ours. */
  ghost predicate NamesakeOf(idOf: Cert -> DeviceId, rows: Devices, own: DeviceId, legacy: Option<DeviceId>,
                             id: DeviceId, peer: DeviceId) {
    && legacy != Some(id) && id in rows && rows[id].cert.None?
    && OnlyCertRow(rows, rows[id].name, peer) && idOf(rows[peer].cert.value) != own
  }

  // ----- building it, loop by loop; the rows come in an arbitrary order

  /** First and second loop: certificates whose row has another id. */
  method CollectMiskeyed(idOf: Cert -> DeviceId, rows: Devices, own: DeviceId, legacy: Option<DeviceId>)
    returns (remap: Remap)
    ensures forall id :: id in remap <==> Miskeyed(idOf, rows, own, id) || IsLegacy(legacy, own, id)
    ensures forall id :: Miskeyed(idOf, rows, own, id) ==> remap[id] == idOf(rows[id].cert.value)
    ensures forall id :: IsLegacy(legacy, own, id) && !Miskeyed(idOf, rows, own, id) ==> remap[id] == own
  {
    remap := map[];
    if legacy.Some? {
      remap := remap[legacy.value := own];
    }
    var todo := rows.Keys;
    while todo != {}
      invariant todo <= rows.Keys
      invariant forall id :: id in remap <==>
        legacy == Some(id) || (id !in todo && CarriesCert(rows, id) && idOf(rows[id].cert.value) != id)
      invariant forall id :: id in remap ==>
        remap[id] ==
          if id !in todo && CarriesCert(rows, id) && idOf(rows[id].cert.value) != id then idOf(rows[id].cert.value)
          else own
    {
      var id :| id in todo;
      if rows[id].cert.Some? {
        var canonical := idOf(rows[id].cert.value);
        if canonical != id {
          remap := remap[id := canonical];
        }
      }
      todo := todo - {id};
    }
    remap := remap - {own};
    // rows that carry our own certificate under another id are folded onto us
    todo := rows.Keys;
    ghost var before := remap;
    while todo != {}
      invariant todo <= rows.Keys
      invariant remap == before
    {
      var id :| id in todo;
      if rows[id].cert.Some? && idOf(rows[id].cert.value) == own && id != own {
        assert id in remap && remap[id] == own;
        remap := remap[id := own];
      }
      todo := todo - {id};
    }
  }

  /** How many rows with this name carry a certificate, and the derived id of one of them. */
  ghost predicate TalliedName(idOf: Cert -> DeviceId, rows: Devices, seen: set<DeviceId>,
                              counts: map<string, nat>, ids: map<string, DeviceId>, name: string) {
    if name in counts then
      && counts[name] == |CertRows(rows, seen, name)| > 0
      && name in ids
      && exists id :: id in CertRows(rows, seen, name) && ids[name] == idOf(rows[id].cert.value)
    else |CertRows(rows, seen, name)| == 0
  }

  ghost predicate NameTally(idOf: Cert -> DeviceId, rows: Devices, seen: set<DeviceId>,
                            counts: map<string, nat>, ids: map<string, DeviceId>) {
    forall name :: TalliedName(idOf, rows, seen, counts, ids, name)
  }

  ghost function CertRows(rows: Devices, seen: set<DeviceId>, name: string): set<DeviceId> {
    set id | id in seen && CarriesCert(rows, id) && rows[id].name == name
  }

  method TallyNames(idOf: Cert -> DeviceId, rows: Devices)
    returns (counts: map<string, nat>, ids: map<string, DeviceId>)
    ensures NameTally(idOf, rows, rows.Keys, counts, ids)
  {
    counts, ids := map[], map[];
    var todo := rows.Keys;
    ghost var seen: set<DeviceId> := {};
    while todo != {}
      invariant todo <= rows.Keys && seen == rows.Keys - todo
      invariant NameTally(idOf, rows, seen, counts, ids)
    {
      var id :| id in todo;
      var row := rows[id];
      ghost var counts0, ids0, seen0 := counts, ids, seen;
      if row.cert.Some? {
        counts := counts[row.name := if row.name in counts then counts[row.name] + 1 else 1];
        ids := ids[row.name := idOf(row.cert.value)];
      }
      todo := todo - {id};
      seen := seen + {id};
      TallyGrows(idOf, rows, seen0, id, counts0, ids0, counts, ids);
    }
    assert seen == rows.Keys;
  }

  lemma {:induction false} TallyGrows(idOf: Cert -> DeviceId, rows: Devices, seen: set<DeviceId>, id: DeviceId,
                                      counts: map<string, nat>, ids: map<string, DeviceId>,
                                      counts': map<string, nat>, ids': map<string, DeviceId>)
    requires NameTally(idOf, rows, seen, counts, ids) && id in rows && id !in seen
    requires var row := rows[id];
      if row.cert.Some?
      then counts' == counts[row.name := if row.name in counts then counts[row.name] + 1 else 1] &&
           ids' == ids[row.name := idOf(row.cert.value)]
      else counts' == counts && ids' == ids
    ensures NameTally(idOf, rows, seen + {id}, counts', ids')
  {
    forall name ensures TalliedName(idOf, rows, seen + {id}, counts', ids', name) {
      assert TalliedName(idOf, rows, seen, counts, ids, name);
      CertRowsGrow(rows, seen, id, name);
      if rows[id].cert.Some? && rows[id].name == name {
        assert id in CertRows(rows, seen + {id}, name);
      } else if name in counts {
        var q :| q in CertRows(rows, seen, name) && ids[name] == idOf(rows[q].cert.value);
        assert q in CertRows(rows, seen + {id}, name);
      }
    }
  }

  lemma {:induction false} CertRowsGrow(rows: Devices, seen: set<DeviceId>, id: DeviceId, name: string)
    requires id in rows && id !in seen
    ensures var adds := rows[id].cert.Some? && rows[id].name == name;
      && (forall q :: q in CertRows(rows, seen + {id}, name) <==> q in CertRows(rows, seen, name) || (adds && q == id))
      && |CertRows(rows, seen + {id}, name)| == |CertRows(rows, seen, name)| + (if adds then 1 else 0)
  {
    assert CertRows(rows, seen + {id}, name) ==
      if rows[id].cert.Some? && rows[id].name == name then CertRows(rows, seen, name) + {id}
      else CertRows(rows, seen, name);
  }

  /** A name counted once names exactly one certificate-carrying row. */
  lemma {:induction false} CountedOnce(idOf: Cert -> DeviceId, rows: Devices, counts: map<string, nat>,
                                       ids: map<string, DeviceId>,
                                       name: string, peer: DeviceId)
    requires NameTally(idOf, rows, rows.Keys, counts, ids)
    ensures OnlyCertRow(rows, name, peer) <==>
      name in counts && counts[name] == 1 && peer in CertRows(rows, rows.Keys, name)
    ensures OnlyCertRow(rows, name, peer) ==> name in ids && ids[name] == idOf(rows[peer].cert.value)
  {
    assert TalliedName(idOf, rows, rows.Keys, counts, ids, name);
    var rs := CertRows(rows, rows.Keys, name);
    if OnlyCertRow(rows, name, peer) {
      assert rs == {peer};
    }
    if name in counts && counts[name] == 1 && peer in rs {
      assert |rs - {peer}| == 0;
      assert rs == {peer};
      assert forall q :: CarriesCert(rows, q) && rows[q].name == name ==> q in rs;
    }
  }

  /** The test the loop makes for a stub is the right one, and the id it finds is the peer's. */
  lemma {:induction false} StubTest(idOf: Cert -> DeviceId, rows: Devices, own: DeviceId, legacy: Option<DeviceId>,
                                    counts: map<string, nat>, ids: map<string, DeviceId>, id: DeviceId)
    requires NameTally(idOf, rows, rows.Keys, counts, ids) && id in rows
    ensures (exists peer :: IsStub(idOf, rows, own, legacy, id, peer)) <==>
      rows[id].cert.None? && !IsLegacy(legacy, own, id) &&
      rows[id].name in counts && counts[rows[id].name] == 1 && rows[id].name in ids && ids[rows[id].name] != own
    ensures forall peer :: IsStub(idOf, rows, own, legacy, id, peer) ==>
      rows[id].name in ids && ids[rows[id].name] == idOf(rows[peer].cert.value)
  {
    var name := rows[id].name;
    assert TalliedName(idOf, rows, rows.Keys, counts, ids, name);
    forall peer { CountedOnce(idOf, rows, counts, ids, name, peer); }
    if name in counts {
      var peer :| peer in CertRows(rows, rows.Keys, name) && ids[name] == idOf(rows[peer].cert.value);
      if rows[id].cert.None? && !IsLegacy(legacy, own, id) && counts[name] == 1 && ids[name] != own {
        assert OnlyCertRow(rows, name, peer);
        assert IsStub(idOf, rows, own, legacy, id, peer);
      }
    }
  }

  method BuildRemap(idOf: Cert -> DeviceId, rows: Devices, own: DeviceId, legacy: Option<DeviceId>)
    returns (remap: Remap)
    ensures IsRemap(idOf, rows, own, legacy, remap)
  {
    remap := CollectMiskeyed(idOf, rows, own, legacy);
    var counts, ids := TallyNames(idOf, rows);
    ghost var base := remap;
    var todo := rows.Keys;
    while todo != {}
      invariant todo <= rows.Keys
      invariant forall id :: id in remap <==>
        id in base || (id !in todo && exists peer :: IsStub(idOf, rows, own, legacy, id, peer))
      invariant forall id :: id in base ==> remap[id] == base[id]
      invariant forall id, peer :: id !in todo && IsStub(idOf, rows, own, legacy, id, peer) ==>
        id in remap && remap[id] == idOf(rows[peer].cert.value)
    {
      var id :| id in todo;
      var row := rows[id];
      todo := todo - {id};
      StubTest(idOf, rows, own, legacy, counts, ids, id);
      if row.cert.None? && id !in remap && row.name in counts && counts[row.name] == 1 &&
         row.name in ids && ids[row.name] != own
      {
        remap := remap[id := ids[row.name]];
      }
    }
  }

  // ----- re-pointing references

  function Repoint(refs: seq<Ref>, from: DeviceId, to: DeviceId): (r: seq<Ref>)
    ensures |r| == |refs|
  {
    seq(|refs|, i requires 0 <= i < |refs| => if refs[i].device == from then refs[i].(device := to) else refs[i])
  }

  predicate NoDuplicates(refs: seq<Ref>) {
    forall i, j :: 0 <= i < j < |refs| ==> refs[i] != refs[j]
  }

  /** One UPDATE statement; it fails when it would break a uniqueness constraint. */
  function Update(t: Table, from: DeviceId, to: DeviceId): Option<Table> {
    var refs := Repoint(t.refs, from, to);
    if t.unique && !NoDuplicates(refs) then None else Some(t.(refs := refs))
  }

  /** Updates for a list of old ids, one after the other. */
  ghost function Chase(remap: Remap, order: seq<DeviceId>, id: DeviceId): DeviceId
    requires forall k :: k in order ==> k in remap
    decreases |order|
  {
    if order == [] then id
    else Chase(remap, order[1..], if id == order[0] then remap[order[0]] else id)
  }

  /** The order in which a hash map is walked: every key once. */
  ghost predicate IsOrder(order: seq<DeviceId>, keys: set<DeviceId>) {
    Distinct(order) && forall k :: k in order <==> k in keys
  }

  /** Where references end up after all updates, for one order of the walk. */
  ghost predicate Moved(remap: Remap, order: seq<DeviceId>, before: seq<Ref>, after: seq<Ref>)
    requires forall k :: k in order ==> k in remap
  {
    && |after| == |before|
    && forall i :: 0 <= i < |before| ==> after[i] == before[i].(device := Chase(remap, order, before[i].device))
  }

  lemma {:induction false} ChaseStep(remap: Remap, order: seq<DeviceId>, k: DeviceId, id: DeviceId)
    requires (forall q :: q in order ==> q in remap) && k in remap
    ensures Chase(remap, order + [k], id) == var d := Chase(remap, order, id); if d == k then remap[k] else d
    decreases |order|
  {
    if order == [] {
      assert order + [k] == [k];
    } else {
      assert (order + [k])[1..] == order[1..] + [k];
      ChaseStep(remap, order[1..], k, if id == order[0] then remap[order[0]] else id);
    }
  }

  /** A reference to an id that is not remapped never moves. */
  lemma {:induction false} ChaseStays(remap: Remap, order: seq<DeviceId>, id: DeviceId)
    requires (forall q :: q in order ==> q in remap) && id !in order
    ensures Chase(remap, order, id) == id
    decreases |order|
  {
    if order != [] {
      assert order[0] in order;
      ChaseStays(remap, order[1..], id);
    }
  }

  /** Without chains every reference makes at most one move, whatever the order. */
  lemma {:induction false} ChaseOnce(remap: Remap, order: seq<DeviceId>, id: DeviceId)
    requires forall q :: q in order ==> q in remap
    requires forall q :: q in remap ==> remap[q] !in remap
    ensures Chase(remap, order, id) == if id in order then remap[id] else id
    decreases |order|
  {
    if order != [] {
      if id == order[0] {
        ChaseStays(remap, order[1..], remap[id]);
      } else {
        ChaseOnce(remap, order[1..], id);
        assert id in order <==> id in order[1..];
      }
    }
  }

  /** No reference still names a removed id, whatever it named before and whatever the order of the walk. */
  ghost predicate NeverDangles(remap: Remap) {
    forall order, id :: IsOrder(order, remap.Keys) ==> Chase(remap, order, id) !in remap
  }

  lemma {:induction false} DanglesIffChained(remap: Remap)
    ensures NeverDangles(remap) <==> !exists k :: k in remap && remap[k] in remap
  {
    if forall k :: k in remap ==> remap[k] !in remap {
      forall order, id | IsOrder(order, remap.Keys) ensures Chase(remap, order, id) !in remap {
        ChaseOnce(remap, order, id);
      }
    } else {
      var k :| k in remap && remap[k] in remap;
      ChainDangles(remap, k);
    }
  }

  /** If a target is itself remapped, walking its source last leaves a reference to a removed id. */
  lemma {:induction false} ChainDangles(remap: Remap, k: DeviceId)
    requires k in remap && remap[k] in remap
    ensures exists order, id :: IsOrder(order, remap.Keys) && Chase(remap, order, id) in remap
  {
    var order := Listing(remap.Keys - {k});
    var all := order + [k];
    assert IsOrder(all, remap.Keys) by {
      assert forall i {:trigger all[..i]} :: 0 <= i <= |order| ==> all[..i] == order[..i];
      assert forall q :: q in all <==> q in order || q == k;
    }
    ChaseStays(remap, order, k);
    ChaseStep(remap, order, k, k);
    assert Chase(remap, all, k) == remap[k];
  }

  // ----- the condition, said about the device table

  /** The table folds `id` onto `target`. */
  ghost predicate Folds(idOf: Cert -> DeviceId, rows: Devices, own: DeviceId, legacy: Option<DeviceId>,
                        id: DeviceId, target: DeviceId) {
    if Miskeyed(idOf, rows, own, id) then target == idOf(rows[id].cert.value)
    else if IsLegacy(legacy, own, id) then target == own
    else exists peer :: IsStub(idOf, rows, own, legacy, id, peer) && target == idOf(rows[peer].cert.value)
  }

  /** Some id is folded onto an id that is itself folded. */
  ghost predicate HasChain(idOf: Cert -> DeviceId, rows: Devices, own: DeviceId, legacy: Option<DeviceId>) {
    exists a, b, c :: Folds(idOf, rows, own, legacy, a, b) && Folds(idOf, rows, own, legacy, b, c)
  }

  lemma {:induction false} FoldsIsRemap(idOf: Cert -> DeviceId, rows: Devices, own: DeviceId, legacy: Option<DeviceId>,
                                        m: Remap, id: DeviceId, target: DeviceId)
    requires IsRemap(idOf, rows, own, legacy, m)
    ensures Folds(idOf, rows, own, legacy, id, target) <==> id in m && m[id] == target
  {
    if id in m && !Miskeyed(idOf, rows, own, id) && !IsLegacy(legacy, own, id) {
      var peer :| IsStub(idOf, rows, own, legacy, id, peer);
      assert m[id] == idOf(rows[peer].cert.value);
    }
  }

  /** The table has a chain exactly when the remap built from it maps some id onto one of its own keys. */
  lemma {:induction false} ChainInRemap(idOf: Cert -> DeviceId, rows: Devices, own: DeviceId,
                                        legacy: Option<DeviceId>, m: Remap)
    requires IsRemap(idOf, rows, own, legacy, m)
    ensures HasChain(idOf, rows, own, legacy) <==> exists k :: k in m && m[k] in m
  {
    if HasChain(idOf, rows, own, legacy) {
      var a, b, c :| Folds(idOf, rows, own, legacy, a, b) && Folds(idOf, rows, own, legacy, b, c);
      FoldsIsRemap(idOf, rows, own, legacy, m, a, b);
      FoldsIsRemap(idOf, rows, own, legacy, m, b, c);
    }
    if k :| k in m && m[k] in m {
      FoldsIsRemap(idOf, rows, own, legacy, m, k, m[k]);
      FoldsIsRemap(idOf, rows, own, legacy, m, m[k], m[m[k]]);
    }
  }

  /**
   For any device table: the migration leaves no reference to a removed id, whatever the references
   and whatever the order in which the remap is walked, exactly when the table has no chain.
   */
  lemma {:induction false} NoDanglingIffNoChain(idOf: Cert -> DeviceId, rows: Devices, own: DeviceId,
                                                legacy: Option<DeviceId>, remap: Remap)
    requires IsRemap(idOf, rows, own, legacy, remap)
    ensures NeverDangles(remap) <==> !HasChain(idOf, rows, own, legacy)
  {
    ChainInRemap(idOf, rows, own, legacy, remap);
    DanglesIffChained(remap);
  }

  /** The rows of the witness: "a" has the certificate of "b", and "b" has the certificate of "c". */
  const CHAINED: Devices := map["a" := Row(Some([1]), "x"), "b" := Row(Some([2]), "y")]

  /** Such tables exist: the migration maps "a" to "b" and "b" to "c", and the order b, a leaves a reference on "b". */
  lemma {:induction false} ChainExists(idOf: Cert -> DeviceId, own: DeviceId, remap: Remap)
    requires idOf([1]) == "b" && idOf([2]) == "c" && own != "a" && own != "b"
    requires IsRemap(idOf, CHAINED, own, None, remap)
    ensures HasChain(idOf, CHAINED, own, None)
    ensures remap == map["a" := "b", "b" := "c"]
    ensures IsOrder(["b", "a"], remap.Keys) && Chase(remap, ["b", "a"], "a") == "b"
  {
    assert Miskeyed(idOf, CHAINED, own, "a") && Miskeyed(idOf, CHAINED, own, "b");
    assert Folds(idOf, CHAINED, own, None, "a", "b") && Folds(idOf, CHAINED, own, None, "b", "c");
    assert forall id :: id in remap <==> id == "a" || id == "b";
    assert remap.Keys == {"a", "b"};
    var order := ["b", "a"];
    assert order[..0] == [] && order[..1] == ["b"];
    assert order[1..] == ["a"] && order[1..][1..] == [];
  }

  // ----- the migration

  /** Every certificate is stored under the id derived from it. */
  ghost predicate Canonical(idOf: Cert -> DeviceId, rows: Devices) {
    forall id :: CarriesCert(rows, id) ==> id == idOf(rows[id].cert.value)
  }

  /** Apart from our own row, exactly the remapped rows are gone and the others are as they were. */
  ghost predicate OthersKept(before: Devices, after: Devices, remap: Remap, own: DeviceId) {
    forall id :: id != own ==>
      (id in after <==> id in before && id !in remap) && (id in after ==> after[id] == before[id])
  }

  ghost predicate AllMoved(remap: Remap, order: seq<DeviceId>, before: seq<Table>, after: seq<Table>)
    requires forall k :: k in order ==> k in remap
  {
    && |after| == |before|
    && forall n :: 0 <= n < |after| ==> Moved(remap, order, before[n].refs, after[n].refs)
  }

  /** Some order in which a hash map can be walked. */
  method Walk(keys: set<DeviceId>) returns (order: seq<DeviceId>)
    ensures IsOrder(order, keys)
  {
    order := [];
    var todo := keys;
    while todo != {}
      invariant todo <= keys
      invariant IsOrder(order, keys - todo)
    {
      var k :| k in todo;
      ghost var walked := order;
      order := order + [k];
      todo := todo - {k};
      assert forall i {:trigger order[..i]} :: 0 <= i <= |walked| ==> order[..i] == walked[..i];
      assert forall q :: q in order <==> q in walked || q == k;
    }
  }

  /** After a migration without chains, no reference in any table names a removed id. */
  lemma {:induction false} NoDanglingReference(remap: Remap, order: seq<DeviceId>, before: seq<Table>,
                                               after: seq<Table>, n: nat, i: nat)
    requires IsOrder(order, remap.Keys) && AllMoved(remap, order, before, after)
    requires forall k :: k in remap ==> remap[k] !in remap
    requires n < |after| && i < |after[n].refs|
    ensures after[n].refs[i].device !in remap
    ensures before[n].refs[i].device !in remap ==> after[n].refs[i] == before[n].refs[i]
    ensures before[n].refs[i].device in remap ==> after[n].refs[i].device == remap[before[n].refs[i].device]
  {
    assert Moved(remap, order, before[n].refs, after[n].refs);
    ChaseOnce(remap, order, before[n].refs[i].device);
  }

  /** No reference of any table names one of these ids. */
  ghost predicate NoneNames(tables: seq<Table>, ids: set<DeviceId>) {
    forall n, i :: 0 <= n < |tables| && 0 <= i < |tables[n].refs| ==> tables[n].refs[i].device !in ids
  }

  lemma {:induction false} NoDanglingReferences(remap: Remap, order: seq<DeviceId>, before: seq<Table>,
                                                after: seq<Table>)
    requires IsOrder(order, remap.Keys) && AllMoved(remap, order, before, after)
    requires !exists k :: k in remap && remap[k] in remap
    ensures NoneNames(after, remap.Keys)
  {
    forall n, i | 0 <= n < |after| && 0 <= i < |after[n].refs| ensures after[n].refs[i].device !in remap.Keys {
      NoDanglingReference(remap, order, before, after, n, i);
    }
  }

  // ----- when the migration succeeds

  /** The uniqueness constraints hold. */
  ghost predicate Constrained(tables: seq<Table>) {
    forall n :: 0 <= n < |tables| && tables[n].unique ==> NoDuplicates(tables[n].refs)
  }

  /** The walk brings two rows of a unique table to the same key and device. */
  ghost predicate Collides(remap: Remap, order: seq<DeviceId>, t: Table)
    requires forall k :: k in order ==> k in remap
  {
    t.unique &&
    exists i, k ::
      0 <= i < k < |t.refs| && t.refs[i].key == t.refs[k].key &&
      Chase(remap, order, t.refs[i].device) == Chase(remap, order, t.refs[k].device)
  }

  lemma {:induction false} ChaseSplit(remap: Remap, order: seq<DeviceId>, j: nat, id: DeviceId)
    requires (forall k :: k in order ==> k in remap) && j <= |order|
    ensures Chase(remap, order, id) == Chase(remap, order[j..], Chase(remap, order[..j], id))
    decreases |order| - j
  {
    if j == |order| {
      assert order[..j] == order && order[j..] == [];
    } else {
      ChaseSplit(remap, order, j + 1, id);
      assert order[..j + 1] == order[..j] + [order[j]] && order[j] in order;
      assert order[j..][1..] == order[j + 1..] && order[j..][0] == order[j];
      ChaseStep(remap, order[..j], order[j], id);
    }
  }

  /** Rows that have come to coincide stay together to the end of the walk. */
  lemma {:induction false} DuplicateCollides(remap: Remap, order: seq<DeviceId>, j: nat, t: Table, refs: seq<Ref>)
    requires (forall k :: k in order ==> k in remap) && j <= |order| && t.unique
    requires Moved(remap, order[..j], t.refs, refs) && !NoDuplicates(refs)
    ensures Collides(remap, order, t)
  {
    var i, k :| 0 <= i < k < |refs| && refs[i] == refs[k];
    ChaseSplit(remap, order, j, t.refs[i].device);
    ChaseSplit(remap, order, j, t.refs[k].device);
  }

  /** Where the table says an id ends up when there are no chains: on its target, or where it is. */
  ghost predicate Lands(idOf: Cert -> DeviceId, rows: Devices, own: DeviceId, legacy: Option<DeviceId>,
                        id: DeviceId, target: DeviceId) {
    || Folds(idOf, rows, own, legacy, id, target)
    || (target == id && forall u :: !Folds(idOf, rows, own, legacy, id, u))
  }

  /** Two rows of a unique table differ only in ids that end up the same. */
  ghost predicate MergesRows(idOf: Cert -> DeviceId, rows: Devices, own: DeviceId, legacy: Option<DeviceId>, t: Table) {
    t.unique &&
    exists i, k, target ::
      0 <= i < k < |t.refs| && t.refs[i].key == t.refs[k].key &&
      Lands(idOf, rows, own, legacy, t.refs[i].device, target) &&
      Lands(idOf, rows, own, legacy, t.refs[k].device, target)
  }

  ghost predicate MergesSomewhere(idOf: Cert -> DeviceId, rows: Devices, own: DeviceId, legacy: Option<DeviceId>,
                                  tables: seq<Table>) {
    exists n :: 0 <= n < |tables| && MergesRows(idOf, rows, own, legacy, tables[n])
  }

  lemma {:induction false} LandsIsChase(idOf: Cert -> DeviceId, rows: Devices, own: DeviceId, legacy: Option<DeviceId>,
                                        remap: Remap, order: seq<DeviceId>, id: DeviceId, target: DeviceId)
    requires IsRemap(idOf, rows, own, legacy, remap) && IsOrder(order, remap.Keys)
    requires !HasChain(idOf, rows, own, legacy)
    ensures Lands(idOf, rows, own, legacy, id, target) <==> Chase(remap, order, id) == target
  {
    ChainInRemap(idOf, rows, own, legacy, remap);
    ChaseOnce(remap, order, id);
    FoldsIsRemap(idOf, rows, own, legacy, remap, id, target);
    if id in remap {
      FoldsIsRemap(idOf, rows, own, legacy, remap, id, remap[id]);
    } else {
      forall u ensures !Folds(idOf, rows, own, legacy, id, u) {
        FoldsIsRemap(idOf, rows, own, legacy, remap, id, u);
      }
    }
  }

  /** Without chains, whether a walk makes rows collide can be read off the tables, whatever its order. */
  lemma {:induction false} CollidesIffMerges(idOf: Cert -> DeviceId, rows: Devices, own: DeviceId,
                                             legacy: Option<DeviceId>, remap: Remap, order: seq<DeviceId>, t: Table)
    requires IsRemap(idOf, rows, own, legacy, remap) && IsOrder(order, remap.Keys)
    requires !HasChain(idOf, rows, own, legacy)
    ensures Collides(remap, order, t) <==> MergesRows(idOf, rows, own, legacy, t)
  {
    if Collides(remap, order, t) {
      var i, k :| 0 <= i < k < |t.refs| && t.refs[i].key == t.refs[k].key &&
        Chase(remap, order, t.refs[i].device) == Chase(remap, order, t.refs[k].device);
      var target := Chase(remap, order, t.refs[i].device);
      LandsIsChase(idOf, rows, own, legacy, remap, order, t.refs[i].device, target);
      LandsIsChase(idOf, rows, own, legacy, remap, order, t.refs[k].device, target);
    }
    if MergesRows(idOf, rows, own, legacy, t) {
      var i, k, target :| 0 <= i < k < |t.refs| && t.refs[i].key == t.refs[k].key &&
        Lands(idOf, rows, own, legacy, t.refs[i].device, target) &&
        Lands(idOf, rows, own, legacy, t.refs[k].device, target);
      LandsIsChase(idOf, rows, own, legacy, remap, order, t.refs[i].device, target);
      LandsIsChase(idOf, rows, own, legacy, remap, order, t.refs[k].device, target);
    }
  }

  /** A device attached to one folder under its old id and under the id it is folded onto is such a case. */
  lemma {:induction false} AttachedTwiceMerges(idOf: Cert -> DeviceId, rows: Devices, own: DeviceId,
                                               legacy: Option<DeviceId>, t: Table, id: DeviceId, target: DeviceId,
                                               i: nat, k: nat)
    requires Folds(idOf, rows, own, legacy, id, target) && !HasChain(idOf, rows, own, legacy)
    requires t.unique && i < k < |t.refs| && t.refs[i].key == t.refs[k].key
    requires {t.refs[i].device, t.refs[k].device} == {id, target}
    ensures MergesRows(idOf, rows, own, legacy, t)
  {
    assert forall u :: !Folds(idOf, rows, own, legacy, target, u);
    assert Lands(idOf, rows, own, legacy, id, target) && Lands(idOf, rows, own, legacy, target, target);
    assert t.refs[i].device in {id, target} && t.refs[k].device in {id, target};
  }

  class Storage {
    var devices: Devices
    var tables: seq<Table>

    ghost predicate Valid()
      reads this
    {
      Constrained(tables)
    }

    constructor (devices: Devices, tables: seq<Table>)
      requires Constrained(tables)
      ensures Valid() && this.devices == devices && this.tables == tables
    {
      this.devices, this.tables := devices, tables;
    }

    /** Create or refresh a row with a certificate; an empty name keeps the recorded one. */
    method EnsureSelfRow(id: DeviceId, cert: Cert, name: string)
      modifies this`devices
      ensures id in devices && devices[id].cert == Some(cert)
      ensures devices[id].name == if name != "" || id !in old(devices) then name else old(devices)[id].name
      ensures forall other :: other != id ==>
        (other in devices <==> other in old(devices)) && (other in devices ==> devices[other] == old(devices)[other])
    {
      var kept := if name != "" || id !in devices then name else devices[id].name;
      devices := devices[id := Row(Some(cert), kept)];
    }

    /** Re-point one table, old id by old id, in the given order of the walk. */
    method RepointTable(n: nat, remap: Remap, order: seq<DeviceId>) returns (ok: bool)
      requires Valid() && n < |tables| && forall k :: k in order ==> k in remap
      modifies this`tables
      ensures Valid() && |tables| == old(|tables|)
      ensures ok <==> !Collides(remap, order, old(tables)[n])
      ensures forall i :: 0 <= i < |tables| && i != n ==> tables[i] == old(tables)[i]
      ensures ok ==>
        Moved(remap, order, old(tables)[n].refs, tables[n].refs) && tables[n].unique == old(tables)[n].unique
    {
      var start := tables[n];
      for j := 0 to |order|
        invariant |tables| == old(|tables|)
        invariant forall i :: 0 <= i < |tables| && i != n ==> tables[i] == old(tables)[i]
        invariant tables[n].unique == start.unique && Valid()
        invariant Moved(remap, order[..j], start.refs, tables[n].refs)
      {
        var k := order[j];
        assert order[..j + 1] == order[..j] + [k] && k in order;
        forall i | 0 <= i < |start.refs| {
          ChaseStep(remap, order[..j], k, start.refs[i].device);
        }
        var updated := Update(tables[n], k, remap[k]);
        if updated.None? {
          DuplicateCollides(remap, order, j + 1, start, Repoint(tables[n].refs, k, remap[k]));
          return false;
        }
        tables := tables[n := updated.value];
      }
      assert order[..|order|] == order;
      assert !Collides(remap, order, start);
      return true;
    }

    /**
     The whole migration. It succeeds exactly when no unique table gets two rows with the same key and
     device; without chains the tables alone tell. When it succeeds,
       every certificate sits under the id derived from it, our
     own row exists with our certificate, no other row was touched, and references moved as the
     remap says, in whatever order its entries are walked.
     */
    method ReconcileDevicesByCert(idOf: Cert -> DeviceId, cert: Cert, legacy: Option<DeviceId>, ownName: string)
      returns (ok: bool, remap: Remap, order: seq<DeviceId>)
      requires Valid()
      modifies this
      ensures Valid() && IsRemap(idOf, old(devices), idOf(cert), legacy, remap) && IsOrder(order, remap.Keys)
      ensures ok <==> forall n :: 0 <= n < |old(tables)| ==> !Collides(remap, order, old(tables)[n])
      ensures !HasChain(idOf, old(devices), idOf(cert), legacy) ==>
        (ok <==> !MergesSomewhere(idOf, old(devices), idOf(cert), legacy, old(tables)))
      ensures ok ==> Canonical(idOf, devices)
      ensures ok ==> idOf(cert) in devices && devices[idOf(cert)].cert == Some(cert)
      ensures ok ==>
        var kept := idOf(cert) in old(devices) && idOf(cert) !in remap && ownName == "";
        devices[idOf(cert)].name == if kept then old(devices)[idOf(cert)].name else ownName
      ensures ok ==> OthersKept(old(devices), devices, remap, idOf(cert))
      ensures ok ==> AllMoved(remap, order, old(tables), tables)
      ensures ok && !HasChain(idOf, old(devices), idOf(cert), legacy) ==> NoneNames(tables, remap.Keys)
    {
      var own := idOf(cert);
      remap := BuildRemap(idOf, devices, own, legacy);
      order := Walk(remap.Keys);
      ghost var before := tables;
      if !HasChain(idOf, devices, own, legacy) {
        forall n | 0 <= n < |before|
          ensures Collides(remap, order, before[n]) <==> MergesRows(idOf, devices, own, legacy, before[n])
        {
          CollidesIffMerges(idOf, devices, own, legacy, remap, order, before[n]);
        }
      }
      for n := 0 to |tables|
        invariant devices == old(devices) && |tables| == |before| && Valid()
        invariant forall i :: 0 <= i < n ==> !Collides(remap, order, before[i])
        invariant forall i :: 0 <= i < n ==> Moved(remap, order, before[i].refs, tables[i].refs)
        invariant forall i :: n <= i < |tables| ==> tables[i] == before[i]
      {
        ok := RepointTable(n, remap, order);
        if !ok {
          return;
        }
      }
      if !HasChain(idOf, devices, own, legacy) {
        ChainInRemap(idOf, devices, own, legacy, remap);
        NoDanglingReferences(remap, order, before, tables);
      }
      devices := devices - remap.Keys;
      EnsureSelfRow(own, cert, ownName);
      ok := true;
    }
  }

  /** Stored under its derived id, a certificate cannot sit under two ids. */
  lemma {:induction false} OneIdPerCert(idOf: Cert -> DeviceId, rows: Devices, a: DeviceId, b: DeviceId)
    requires Canonical(idOf, rows) && CarriesCert(rows, a) && CarriesCert(rows, b) && rows[a].cert == rows[b].cert
    ensures a == b
  {
    assert a == idOf(rows[a].cert.value);
  }
}
