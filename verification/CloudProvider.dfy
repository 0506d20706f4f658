/** The Cloudflare provider at work: paginated reads, the index, and one API call
    after another, any of which may fail (internal/provider/cloudflare.go). */
module CloudProvider {
  import opened GoText
  import opened Endpoints
  import opened Planning
  import opened DnsZone
  import opened ZoneChoice
  import opened CloudStore
  import opened Cloudflare

  datatype Listed = Listed(id: nat, rec: CfRecord)

  /** `ls` are records of the zone as stored, no id twice. */
  ghost predicate FromZone(recs: map<nat, CfRecord>, zone: string, ls: seq<Listed>) {
    && (forall l :: l in ls ==> l.id in recs && recs[l.id] == l.rec && l.rec.zone == zone)
    && (forall i, j :: 0 <= i < j < |ls| ==> ls[i].id != ls[j].id)
  }

  /** `ls` are all records of the zone. */
  ghost predicate WholeZone(recs: map<nat, CfRecord>, zone: string, ls: seq<Listed>) {
    && FromZone(recs, zone, ls)
    && forall id :: id in recs && recs[id].zone == zone ==> Listed(id, recs[id]) in ls
  }

  /** The records of a zone not listed yet. */
  function Unlisted(recs: map<nat, CfRecord>, zone: string, ls: seq<Listed>): set<nat> {
    set id | id in recs && recs[id].zone == zone && Listed(id, recs[id]) !in ls
  }

  ghost predicate InZones(c: Cloud, zones: seq<string>) {
    forall id :: id in c.recs ==> c.recs[id].zone in zones
  }

  /** The API: every call can fail, and a call that reports a failure may still have taken effect.
      It counts the calls that have reported one. */
  class CloudApi {
    var cloud: Cloud
    const zones: seq<string>
    ghost var failedReads: nat
    ghost var failedWrites: nat

    constructor (cloud: Cloud, zones: seq<string>)
      ensures this.cloud == cloud && this.zones == zones && failedReads == 0 && failedWrites == 0
    {
      this.cloud, this.zones := cloud, zones;
      failedReads, failedWrites := 0, 0;
    }

    /** The account holds the records of the listed zones, and lists no zone twice. */
    ghost predicate Valid()
      reads this
    {
      && cloud.Valid()
      && InZones(cloud, zones)
      && (forall z :: z in zones ==> Undotted(z) == z)
      && (forall i, j :: 0 <= i < j < |zones| ==> zones[i] != zones[j])
    }

    method ListZones() returns (ok: bool, zs: seq<string>)
      modifies this`failedReads
      ensures ok ==> zs == zones
      ensures failedReads == old(failedReads) + if ok then 0 else 1
    {
      ok, zs := *, zones;
      failedReads := failedReads + if ok then 0 else 1;
    }

    /** The next page after the records listed so far. */
    method ListDNSRecords(zone: string, listed: seq<Listed>) returns (ok: bool, page: seq<Listed>, more: bool)
      requires FromZone(cloud.recs, zone, listed)
      modifies this`failedReads
      ensures failedReads == old(failedReads) + if ok then 0 else 1
      ensures ok ==> FromZone(cloud.recs, zone, listed + page)
      ensures ok && !more ==> WholeZone(cloud.recs, zone, listed + page)
      ensures ok && more ==> page != []
    {
      page := [];
      var todo := set id | id in cloud.recs && cloud.recs[id].zone == zone && Listed(id, cloud.recs[id]) !in listed;
      assert listed + page == listed;
      ok := *;
      var full := false;
      while ok && todo != {} && !full
        invariant failedReads == old(failedReads)
        invariant FromZone(cloud.recs, zone, listed + page)
        invariant todo == Unlisted(cloud.recs, zone, listed + page)
        invariant full ==> page != []
        decreases todo, !full
      {
        var id :| id in todo;
        var l := Listed(id, cloud.recs[id]);
        PageStep(cloud.recs, zone, listed + page, id);
        assert listed + (page + [l]) == listed + page + [l];
        page := page + [l];
        todo := todo - {id};
        full := *;
      }
      more := todo != {};
      failedReads := failedReads + if ok then 0 else 1;
      assert ok && !more ==> WholeZone(cloud.recs, zone, listed + page) by {
        assert forall id ::
          id in cloud.recs && cloud.recs[id].zone == zone ==> id in todo || Listed(id, cloud.recs[id]) in listed + page;
      }
    }

    method Change(call: Call) returns (ok: bool)
      modifies this`cloud, this`failedWrites
      ensures cloud == Do(old(cloud), call) || (!ok && cloud == old(cloud))
      ensures failedWrites == old(failedWrites) + if ok then 0 else 1
    {
      ok := *;
      failedWrites := failedWrites + if ok then 0 else 1;
      var late: bool := *;
      if ok || late {
        cloud := Do(cloud, call);
      }
    }
  }

  lemma PageStep(recs: map<nat, CfRecord>, zone: string, ls: seq<Listed>, id: nat)
    requires FromZone(recs, zone, ls) && id in Unlisted(recs, zone, ls)
    ensures FromZone(recs, zone, ls + [Listed(id, recs[id])])
    ensures Unlisted(recs, zone, ls + [Listed(id, recs[id])]) == Unlisted(recs, zone, ls) - {id}
  {
    forall i | 0 <= i < |ls| ensures ls[i].id != id {
      assert ls[i] in ls;
    }
  }

  /** `listRecords`: follows the pages of one zone to the end. */
  method ListRecords(api: CloudApi, zone: string) returns (ok: bool, all: seq<Listed>)
    modifies api`failedReads
    ensures ok ==> WholeZone(api.cloud.recs, zone, all)
    ensures ok <==> api.failedReads == old(api.failedReads)
  {
    all := [];
    while true
      invariant api.failedReads == old(api.failedReads)
      invariant FromZone(api.cloud.recs, zone, all)
      decreases Unlisted(api.cloud.recs, zone, all)
    {
      var page, more;
      ok, page, more := api.ListDNSRecords(zone, all);
      if !ok {
        return false, [];
      }
      ghost var was := all;
      all := all + page;
      if !more {
        return true, all;
      }
      ListingGrows(api.cloud.recs, zone, was, page);
    }
  }

  lemma ListingGrows(recs: map<nat, CfRecord>, zone: string, all: seq<Listed>, page: seq<Listed>)
    requires FromZone(recs, zone, all + page) && page != []
    ensures Unlisted(recs, zone, all + page) < Unlisted(recs, zone, all)
  {
    var l := page[0];
    assert (all + page)[|all|] == l && l in all + page;
    assert forall i :: 0 <= i < |all| ==> all[i] == (all + page)[i] != l;
    assert l.id in Unlisted(recs, zone, all) && l.id !in Unlisted(recs, zone, all + page);
    assert forall m :: m in all ==> m in all + page;
  }

  // ---- all zones, record by record -----------------------------------------------------------------

  /** The records received from whole zones and from the beginning of one more. */
  ghost predicate Got(recs: map<nat, CfRecord>, zones: seq<string>, ls: seq<Listed>, got: map<nat, CfRecord>) {
    forall id :: (id in got <==> id in recs && (recs[id].zone in zones || Listed(id, recs[id]) in ls))
      && (id in got ==> got[id] == recs[id])
  }

  lemma GotNext(recs: map<nat, CfRecord>, zones: seq<string>, zone: string, ls: seq<Listed>, i: nat,
                got: map<nat, CfRecord>)
    requires zone !in zones && FromZone(recs, zone, ls) && i < |ls| && Got(recs, zones, ls[..i], got)
    ensures ls[i].id !in got && ls[i].id in recs && recs[ls[i].id] == ls[i].rec
    ensures Got(recs, zones, ls[..i + 1], got[ls[i].id := ls[i].rec])
  {
    var l := ls[i];
    assert l in ls;
    assert ls[..i + 1] == ls[..i] + [l];
    forall m | m in ls[..i] ensures m.id != l.id {
      var p :| 0 <= p < i && ls[p] == m;
    }
  }

  lemma GotZone(recs: map<nat, CfRecord>, zones: seq<string>, zone: string, ls: seq<Listed>, got: map<nat, CfRecord>)
    requires WholeZone(recs, zone, ls) && Got(recs, zones, ls, got)
    ensures Got(recs, zones + [zone], [], got)
  {
  }

  lemma GotAll(c: Cloud, zones: seq<string>, got: map<nat, CfRecord>)
    requires Got(c.recs, zones, [], got) && forall id :: id in c.recs ==> c.recs[id].zone in zones
    ensures Cloud(got, c.next) == c
  {
    assert got == c.recs;
  }

  /** The endpoint of a single record; records of other types are skipped. */
  function ToEndpoint(rec: CfRecord): Option<Endpoint> {
    match rec.key.rtype
    case Known(t) => Some(Endpoint(rec.key.name, [ContentOf(rec)], t, rec.ttl, LabelsOf(rec)))
    case Other(_) => None
  }

  function Merged(m: map<Key, Endpoint>, e: Endpoint): map<Key, Endpoint> {
    if e.Key() in m then m[e.Key() := m[e.Key()].(targets := m[e.Key()].targets + e.targets)] else m[e.Key() := e]
  }

  lemma {:induction false} SameContentsIn(sub: map<nat, CfRecord>, sub': map<nat, CfRecord>, ids: seq<nat>)
    requires forall id :: id in ids ==> id in sub && id in sub' && sub[id] == sub'[id]
    ensures Contents(sub, ids) == Contents(sub', ids)
  {
    if ids != [] {
      assert ids[|ids| - 1] in ids;
      SameContentsIn(sub, sub', ids[..|ids| - 1]);
    }
  }

  lemma ContentsMore(sub: map<nat, CfRecord>, ids: seq<nat>, id: nat, rec: CfRecord)
    requires id !in sub && forall i :: i in ids ==> i in sub
    ensures Contents(sub[id := rec], ids + [id]) == Contents(sub, ids) + [ContentOf(rec)]
  {
    SameContentsIn(sub, sub[id := rec], ids);
    ContentsAppend(sub[id := rec], ids, [id]);
    assert [id][..0] == [] && Contents(sub[id := rec], []) == [];
  }

  lemma EnumerateMore(sub: map<nat, CfRecord>, ids: seq<nat>, id: nat, rec: CfRecord)
    requires Enumerates(ids, sub) && id !in sub
    ensures Enumerates(ids + [id], sub[id := rec])
  {
    assert forall i :: 0 <= i < |ids| ==> ids[i] in ids;
  }

  lemma ReadMore(sub: map<nat, CfRecord>, id: nat, rec: CfRecord, h: Endpoint)
    requires ReadsSub(sub, h) && id !in sub
    ensures ReadsSub(sub[id := rec], h.(targets := h.targets + [ContentOf(rec)]))
  {
    var ids :| ReadsIn(sub, ids, h);
    var ids' := ids + [id];
    ContentsMore(sub, ids, id, rec);
    EnumerateMore(sub, ids, id, rec);
    assert ids'[0] == ids[0] && ids[0] in ids;
    assert ReadsIn(sub[id := rec], ids', h.(targets := h.targets + [ContentOf(rec)]));
  }

  lemma ReadFirst(id: nat, rec: CfRecord, e: Endpoint)
    requires ToEndpoint(rec) == Some(e)
    ensures ReadsSub(map[id := rec], e)
  {
    assert Contents(map[id := rec], [id]) == [ContentOf(rec)];
    assert ReadsIn(map[id := rec], [id], e);
  }

  lemma SubGrows(got: map<nat, CfRecord>, n: nat, id: nat, rec: CfRecord, k: RRKey)
    requires id !in got
    ensures Sub(Cloud(got[id := rec], n), k) ==
      if k == rec.key then Sub(Cloud(got, n), k)[id := rec] else Sub(Cloud(got, n), k)
  {
  }

  lemma ReadHere(got: map<nat, CfRecord>, n: nat, m: map<Key, Endpoint>, id: nat, rec: CfRecord, e: Endpoint)
    requires ReadsCloud(Cloud(got, n), m) && id !in got && ToEndpoint(rec) == Some(e)
    ensures ReadsSub(Sub(Cloud(got[id := rec], n), rec.key), Merged(m, e)[e.Key()])
  {
    assert rec.key == ZoneKey(e.Key());
    SubGrows(got, n, id, rec, rec.key);
    if e.Key() in m {
      ReadMore(Sub(Cloud(got, n), rec.key), id, rec, m[e.Key()]);
    } else {
      ReadFirst(id, rec, e);
      assert Sub(Cloud(got, n), rec.key) == map[];
    }
  }

  /** The reading `m` is right about key `l`. */
  ghost predicate ReadsAt(c: Cloud, m: map<Key, Endpoint>, l: Key) {
    (l in m <==> Sub(c, ZoneKey(l)) != map[]) && (l in m ==> m[l].Key() == l && ReadsSub(Sub(c, ZoneKey(l)), m[l]))
  }

  lemma ReadElsewhere(got: map<nat, CfRecord>, n: nat, m: map<Key, Endpoint>, id: nat, rec: CfRecord, e: Endpoint,
                      l: Key)
    requires ReadsCloud(Cloud(got, n), m) && id !in got && ToEndpoint(rec) == Some(e) && l != e.Key()
    ensures ReadsAt(Cloud(got[id := rec], n), Merged(m, e), l)
  {
    SubGrows(got, n, id, rec, ZoneKey(l));
    assert ReadsAt(Cloud(got, n), m, l);
  }

  lemma ReadOneAt(got: map<nat, CfRecord>, n: nat, m: map<Key, Endpoint>, id: nat, rec: CfRecord, e: Endpoint, l: Key)
    requires ReadsCloud(Cloud(got, n), m) && id !in got && ToEndpoint(rec) == Some(e)
    ensures ReadsAt(Cloud(got[id := rec], n), Merged(m, e), l)
  {
    if l == e.Key() {
      ReadHere(got, n, m, id, rec, e);
      assert id in Sub(Cloud(got[id := rec], n), rec.key);
    } else {
      ReadElsewhere(got, n, m, id, rec, e, l);
    }
  }

  lemma ReadOne(got: map<nat, CfRecord>, n: nat, m: map<Key, Endpoint>, id: nat, rec: CfRecord, e: Endpoint)
    requires ReadsCloud(Cloud(got, n), m) && id !in got && ToEndpoint(rec) == Some(e)
    ensures ReadsCloud(Cloud(got[id := rec], n), Merged(m, e))
  {
    var c', m' := Cloud(got[id := rec], n), Merged(m, e);
    forall l: Key ensures ReadsAt(c', m', l) {
      ReadOneAt(got, n, m, id, rec, e, l);
    }
    ReadsEverywhere(c', m');
  }

  lemma ReadsEverywhere(c: Cloud, m: map<Key, Endpoint>)
    requires forall l :: ReadsAt(c, m, l)
    ensures ReadsCloud(c, m)
  {
    forall l: Key ensures l in m <==> Sub(c, ZoneKey(l)) != map[] {
      assert ReadsAt(c, m, l);
    }
    forall l | l in m ensures m[l].Key() == l && ReadsSub(Sub(c, ZoneKey(l)), m[l]) {
      assert ReadsAt(c, m, l);
    }
  }

  lemma SkipOne(got: map<nat, CfRecord>, n: nat, m: map<Key, Endpoint>, id: nat, rec: CfRecord)
    requires ReadsCloud(Cloud(got, n), m) && id !in got && rec.key.rtype.Other?
    ensures ReadsCloud(Cloud(got[id := rec], n), m)
  {
    forall l: Key ensures Sub(Cloud(got[id := rec], n), ZoneKey(l)) == Sub(Cloud(got, n), ZoneKey(l)) {
      SubGrows(got, n, id, rec, ZoneKey(l));
    }
  }

  /** The inner loop of `Records`: merges one zone's records into the endpoints so far. */
  method MergeZone(ghost c: Cloud, ghost zones: seq<string>, zone: string, recs: seq<Listed>, byKey: map<Key, Endpoint>,
                   order: seq<Key>, ghost got: map<nat, CfRecord>)
    returns (byKey': map<Key, Endpoint>, order': seq<Key>, ghost got': map<nat, CfRecord>)
    requires zone !in zones && WholeZone(c.recs, zone, recs) && Got(c.recs, zones, [], got)
    requires ReadsCloud(Cloud(got, c.next), byKey) && InOrder(byKey, order)
    ensures Got(c.recs, zones + [zone], [], got')
    ensures ReadsCloud(Cloud(got', c.next), byKey') && InOrder(byKey', order')
  {
    byKey', order', got' := byKey, order, got;
    for i := 0 to |recs|
      invariant Got(c.recs, zones, recs[..i], got')
      invariant ReadsCloud(Cloud(got', c.next), byKey') && InOrder(byKey', order')
    {
      GotNext(c.recs, zones, zone, recs, i, got');
      var e := ToEndpoint(recs[i].rec);
      if e.Some? {
        ReadOne(got', c.next, byKey', recs[i].id, recs[i].rec, e.value);
        if e.value.Key() !in byKey' {
          InOrderExtend(byKey', order', e.value.Key(), e.value);
          order' := order' + [e.value.Key()];
        }
        byKey' := Merged(byKey', e.value);
      } else {
        SkipOne(got', c.next, byKey', recs[i].id, recs[i].rec);
      }
      got' := got'[recs[i].id := recs[i].rec];
    }
    assert recs[..|recs|] == recs;
    GotZone(c.recs, zones, zone, recs, got');
  }

  lemma NothingRead(n: nat)
    ensures ReadsCloud(Cloud(map[], n), map[])
  {
    assert forall k :: Sub(Cloud(map[], n), k) == map[];
  }

  /** `Records`: one endpoint per name and type across all zones and pages. */
  method Records(api: CloudApi) returns (ok: bool, out: seq<Endpoint>)
    requires api.Valid()
    modifies api`failedReads
    ensures ok ==> DistinctKeys(out) && ReadsCloud(api.cloud, IndexOf(out))
    ensures ok <==> api.failedReads == old(api.failedReads)
  {
    var zones;
    ok, zones := api.ListZones();
    if !ok {
      return false, [];
    }
    var byKey: map<Key, Endpoint> := map[];
    var order: seq<Key> := [];
    ghost var got: map<nat, CfRecord> := map[];
    NothingRead(api.cloud.next);
    for i := 0 to |zones|
      invariant api.failedReads == old(api.failedReads)
      invariant Got(api.cloud.recs, zones[..i], [], got)
      invariant ReadsCloud(Cloud(got, api.cloud.next), byKey) && InOrder(byKey, order)
    {
      var recs;
      ok, recs := ListRecords(api, zones[i]);
      if !ok {
        return false, [];
      }
      assert zones[i] !in zones[..i];
      assert zones[..i + 1] == zones[..i] + [zones[i]];
      byKey, order, got := MergeZone(api.cloud, zones[..i], zones[i], recs, byKey, order, got);
    }
    assert zones[..|zones|] == zones;
    GotAll(api.cloud, zones, got);
    out := Collect(byKey, order);
    ok := true;
  }

  // ---- the index -----------------------------------------------------------------------------------------

  lemma IndexOneAt(got: map<nat, CfRecord>, n: nat, index: RecordIndex, id: nat, rec: CfRecord, k: RRKey)
    requires Indexes(Cloud(got, n), index) && id !in got
    ensures Enumerates(RefsAt(index[rec.key := RefsAt(index, rec.key) + [id]], k), Sub(Cloud(got[id := rec], n), k))
  {
    SubGrows(got, n, id, rec, k);
    assert Enumerates(RefsAt(index, k), Sub(Cloud(got, n), k));
    if k == rec.key {
      EnumerateMore(Sub(Cloud(got, n), k), RefsAt(index, k), id, rec);
    }
  }

  lemma IndexOne(got: map<nat, CfRecord>, n: nat, index: RecordIndex, id: nat, rec: CfRecord)
    requires Indexes(Cloud(got, n), index) && id !in got
    ensures Indexes(Cloud(got[id := rec], n), index[rec.key := RefsAt(index, rec.key) + [id]])
  {
    var index' := index[rec.key := RefsAt(index, rec.key) + [id]];
    forall k: RRKey ensures Enumerates(RefsAt(index', k), Sub(Cloud(got[id := rec], n), k)) {
      IndexOneAt(got, n, index, id, rec, k);
    }
  }

  method IndexZone(ghost c: Cloud, ghost zones: seq<string>, zone: string, recs: seq<Listed>, index: RecordIndex,
                   ghost got: map<nat, CfRecord>)
    returns (index': RecordIndex, ghost got': map<nat, CfRecord>)
    requires zone !in zones && WholeZone(c.recs, zone, recs) && Got(c.recs, zones, [], got)
    requires Indexes(Cloud(got, c.next), index)
    ensures Got(c.recs, zones + [zone], [], got') && Indexes(Cloud(got', c.next), index')
  {
    index', got' := index, got;
    for i := 0 to |recs|
      invariant Got(c.recs, zones, recs[..i], got')
      invariant Indexes(Cloud(got', c.next), index')
    {
      GotNext(c.recs, zones, zone, recs, i, got');
      IndexOne(got', c.next, index', recs[i].id, recs[i].rec);
      index' := index'[recs[i].rec.key := RefsAt(index', recs[i].rec.key) + [recs[i].id]];
      got' := got'[recs[i].id := recs[i].rec];
    }
    assert recs[..|recs|] == recs;
    GotZone(c.recs, zones, zone, recs, got');
  }

  lemma NothingIndexed(n: nat)
    ensures Indexes(Cloud(map[], n), map[])
  {
    assert forall k :: Sub(Cloud(map[], n), k) == map[];
  }

  /** The first part of `ApplyChanges`: every existing record by type and name. */
  method BuildIndex(api: CloudApi, zones: seq<string>) returns (ok: bool, index: RecordIndex)
    requires api.Valid() && zones == api.zones
    modifies api`failedReads
    ensures ok ==> Indexes(api.cloud, index)
    ensures ok <==> api.failedReads == old(api.failedReads)
  {
    index := map[];
    ghost var got: map<nat, CfRecord> := map[];
    NothingIndexed(api.cloud.next);
    for i := 0 to |zones|
      invariant api.failedReads == old(api.failedReads)
      invariant Got(api.cloud.recs, zones[..i], [], got)
      invariant Indexes(Cloud(got, api.cloud.next), index)
    {
      var recs;
      ok, recs := ListRecords(api, zones[i]);
      if !ok {
        return false, index;
      }
      assert zones[i] !in zones[..i];
      assert zones[..i + 1] == zones[..i] + [zones[i]];
      index, got := IndexZone(api.cloud, zones[..i], zones[i], recs, index, got);
    }
    assert zones[..|zones|] == zones;
    GotAll(api.cloud, zones, got);
    ok := true;
  }

  // ---- writing ----------------------------------------------------------------------------------------------

  /** `create`: one record per target, in the zone found for the name. */
  method CreateAll(api: CloudApi, cfg: Account, e: Endpoint) returns (ok: bool, ghost t: nat)
    modifies api`cloud, api`failedWrites
    ensures t <= |CreateCalls(cfg, e)| && api.cloud == Exec(old(api.cloud), CreateCalls(cfg, e)[..t])
    ensures ok ==> t == |CreateCalls(cfg, e)|
    ensures ok <==> api.failedWrites == old(api.failedWrites) && NoZone !in CreateCalls(cfg, e)
  {
    ghost var c0, calls := api.cloud, CreateCalls(cfg, e);
    ExecNone(c0, calls);
    var zone := LongestZone(e.name, cfg.zones);
    if zone == "" {
      return false, 0;
    }
    t := 0;
    for i := 0 to |e.targets|
      invariant t == i && api.cloud == Exec(c0, calls[..i]) && api.failedWrites == old(api.failedWrites)
    {
      ExecOneMore(c0, calls, i);
      ok := api.Change(Create(CfRecord(zone, ZoneKey(e.Key()), ContentFor(e.rtype, e.targets[i]), TtlFor(cfg, e),
                                       ProxiedFor(cfg, e))));
      if !ok {
        return false, if api.cloud == Exec(c0, calls[..i]) then i else i + 1;
      }
      t := i + 1;
    }
    ok := true;
  }

  /** `del`. */
  method DeleteAll(api: CloudApi, refs: seq<nat>, k: RRKey) returns (ok: bool, ghost t: nat)
    modifies api`cloud, api`failedWrites
    ensures t <= |refs| && api.cloud == Exec(old(api.cloud), DeleteCalls(refs, k)[..t])
    ensures ok ==> t == |refs|
    ensures ok <==> api.failedWrites == old(api.failedWrites)
  {
    ghost var c0, calls := api.cloud, DeleteCalls(refs, k);
    ExecNone(c0, calls);
    t := 0;
    for i := 0 to |refs|
      invariant t == i && api.cloud == Exec(c0, calls[..i]) && api.failedWrites == old(api.failedWrites)
    {
      ExecOneMore(c0, calls, i);
      ok := api.Change(Delete(refs[i], k));
      if !ok {
        return false, if api.cloud == Exec(c0, calls[..i]) then i else i + 1;
      }
      t := i + 1;
    }
    ok := true;
  }

  lemma ExecParts(c: Cloud, a: seq<Call>, b: seq<Call>, s: nat, t: nat)
    requires s <= |a| && t <= |b| && (t > 0 ==> s == |a|)
    ensures Exec(Exec(c, a[..s]), b[..t]) == Exec(c, (a + b)[..s + t])
  {
    ExecAppend(c, a[..s], b[..t]);
    assert a[..s] + b[..t] == (a + b)[..s + t];
  }

  /** The body of the update loop. */
  method UpdateOne(api: CloudApi, cfg: Account, e: Endpoint, refs: seq<nat>) returns (ok: bool, ghost t: nat)
    modifies api`cloud, api`failedWrites
    ensures t <= |UpdateCalls(cfg, e, refs)| && api.cloud == Exec(old(api.cloud), UpdateCalls(cfg, e, refs)[..t])
    ensures ok ==> t == |UpdateCalls(cfg, e, refs)|
    ensures ok <==> api.failedWrites == old(api.failedWrites) && NoZone !in UpdateCalls(cfg, e, refs)
  {
    ghost var c0, k, calls := api.cloud, ZoneKey(e.Key()), UpdateCalls(cfg, e, refs);
    if |refs| == 1 && |e.targets| == 1 {
      ExecNone(c0, calls);
      ExecOneMore(c0, calls, 0);
      ok := api.Change(Update(refs[0], ZoneKey(e.Key()), ContentFor(e.rtype, e.targets[0]), TtlFor(cfg, e),
                              ProxiedFor(cfg, e)));
      t := if api.cloud == c0 && !ok then 0 else 1;
      return;
    }
    ok, t := DeleteAll(api, refs, ZoneKey(e.Key()));
    ghost var d, cr := DeleteCalls(refs, k), CreateCalls(cfg, e);
    assert calls == d + cr;
    if !ok {
      ExecNone(api.cloud, cr);
      ExecParts(c0, d, cr, t, 0);
      return;
    }
    ghost var t2;
    ok, t2 := CreateAll(api, cfg, e);
    ExecParts(c0, d, cr, t, t2);
    t := t + t2;
  }

  /** The first `i` blocks have been carried out. */
  ghost predicate Through(c0: Cloud, blocks: seq<Block>, i: nat, c: Cloud)
    requires i <= |blocks|
  {
    && c == Exec(c0, Flatten(blocks[..i]))
    && forall q :: 0 <= q < i ==> NoZone !in blocks[q].calls
  }

  lemma NotBegun(c0: Cloud, blocks: seq<Block>)
    ensures Through(c0, blocks, 0, c0)
  {
    assert blocks[..0] == [];
  }

  /** `t` calls of the next block lead to `c'`; with `ok` that was all of them. */
  lemma NextBlock(c0: Cloud, blocks: seq<Block>, i: nat, c: Cloud, t: nat, ok: bool, unfailed: bool, c': Cloud)
    returns (j: nat)
    requires i < |blocks| && Through(c0, blocks, i, c)
    requires t <= |blocks[i].calls| && c' == Exec(c, blocks[i].calls[..t]) && (ok ==> t == |blocks[i].calls|)
    requires ok <==> unfailed && NoZone !in blocks[i].calls
    ensures ok ==> Through(c0, blocks, i + 1, c')
    ensures !ok ==> CarriedOut(c0, Flatten(blocks), j, false, c') && !(unfailed && NoZone !in Flatten(blocks))
  {
    j := |Flatten(blocks[..i])| + t;
    FlattenSplit(blocks, i);
    ExecAppend(c0, Flatten(blocks[..i]), blocks[i].calls[..t]);
    if ok {
      FlattenLast(blocks, i);
      assert blocks[i].calls[..t] == blocks[i].calls;
    } else {
      assert Flatten(blocks)[..j] == Flatten(blocks[..i]) + blocks[i].calls[..t];
    }
  }

  lemma NoZoneNowhere(blocks: seq<Block>)
    requires forall i :: 0 <= i < |blocks| ==> NoZone !in blocks[i].calls
    ensures NoZone !in Flatten(blocks)
  {
    if NoZone in Flatten(blocks) {
      var i := FlattenMember(blocks, NoZone);
    }
  }

  /** The first `j` calls have been carried out, all of them if it went well. */
  ghost predicate CarriedOut(c0: Cloud, calls: seq<Call>, j: nat, ok: bool, c: Cloud) {
    && j <= |calls| && c == Exec(c0, calls[..j])
    && (ok ==> j == |calls| && NoZone !in calls)
  }

  lemma AllCarriedOut(c0: Cloud, blocks: seq<Block>, c: Cloud)
    requires Through(c0, blocks, |blocks|, c)
    ensures CarriedOut(c0, Flatten(blocks), |Flatten(blocks)|, true, c)
  {
    assert blocks[..|blocks|] == blocks;
    assert Flatten(blocks)[..|Flatten(blocks)|] == Flatten(blocks);
    NoZoneNowhere(blocks);
  }

  method WriteCreates(api: CloudApi, cfg: Account, es: seq<Endpoint>, ghost calls: seq<Call>)
    returns (ok: bool, ghost j: nat)
    requires calls == Flatten(CreateBlocks(cfg, es))
    modifies api`cloud, api`failedWrites
    ensures CarriedOut(old(api.cloud), calls, j, ok, api.cloud)
    ensures ok <==> api.failedWrites == old(api.failedWrites) && NoZone !in calls
  {
    ghost var c0, bs, failed := api.cloud, CreateBlocks(cfg, es), api.failedWrites;
    ghost var t;
    NotBegun(c0, bs);
    for i := 0 to |es|
      invariant Through(c0, bs, i, api.cloud) && api.failedWrites == failed
    {
      assert bs[i].calls == CreateCalls(cfg, es[i]);
      ghost var c := api.cloud;
      ok, t := CreateAll(api, cfg, es[i]);
      j := NextBlock(c0, bs, i, c, t, ok, api.failedWrites == failed, api.cloud);
      if !ok { return; }
    }
    AllCarriedOut(c0, bs, api.cloud);
    return true, |calls|;
  }

  method WriteUpdates(api: CloudApi, cfg: Account, es: seq<Endpoint>, index: RecordIndex, ghost calls: seq<Call>)
    returns (ok: bool, ghost j: nat)
    requires calls == Flatten(UpdateBlocks(cfg, es, index))
    modifies api`cloud, api`failedWrites
    ensures CarriedOut(old(api.cloud), calls, j, ok, api.cloud)
    ensures ok <==> api.failedWrites == old(api.failedWrites) && NoZone !in calls
  {
    ghost var c0, bs, failed := api.cloud, UpdateBlocks(cfg, es, index), api.failedWrites;
    ghost var t;
    NotBegun(c0, bs);
    for i := 0 to |es|
      invariant Through(c0, bs, i, api.cloud) && api.failedWrites == failed
    {
      var refs := RefsAt(index, ZoneKey(es[i].Key()));
      assert bs[i].calls == UpdateCalls(cfg, es[i], refs);
      ghost var c := api.cloud;
      ok, t := UpdateOne(api, cfg, es[i], refs);
      j := NextBlock(c0, bs, i, c, t, ok, api.failedWrites == failed, api.cloud);
      if !ok { return; }
    }
    AllCarriedOut(c0, bs, api.cloud);
    return true, |calls|;
  }

  lemma NoZoneInDeletes(refs: seq<nat>, k: RRKey)
    ensures NoZone !in DeleteCalls(refs, k)
  {
  }

  method WriteDeletes(api: CloudApi, es: seq<Endpoint>, index: RecordIndex, ghost calls: seq<Call>)
    returns (ok: bool, ghost j: nat)
    requires calls == Flatten(DeleteBlocks(es, index))
    modifies api`cloud, api`failedWrites
    ensures CarriedOut(old(api.cloud), calls, j, ok, api.cloud)
    ensures ok <==> api.failedWrites == old(api.failedWrites) && NoZone !in calls
  {
    ghost var c0, bs, failed := api.cloud, DeleteBlocks(es, index), api.failedWrites;
    ghost var t;
    NotBegun(c0, bs);
    for i := 0 to |es|
      invariant Through(c0, bs, i, api.cloud) && api.failedWrites == failed
    {
      var refs := RefsAt(index, ZoneKey(es[i].Key()));
      assert bs[i].calls == DeleteCalls(refs, ZoneKey(es[i].Key()));
      NoZoneInDeletes(refs, ZoneKey(es[i].Key()));
      ghost var c := api.cloud;
      ok, t := DeleteAll(api, refs, ZoneKey(es[i].Key()));
      j := NextBlock(c0, bs, i, c, t, ok, api.failedWrites == failed, api.cloud);
      if !ok { return; }
    }
    AllCarriedOut(c0, bs, api.cloud);
    return true, |calls|;
  }

  lemma ThenMore(c0: Cloud, a: seq<Call>, b: seq<Call>, i: nat, j: nat, ok: bool, c1: Cloud, c2: Cloud)
    requires CarriedOut(c0, a, i, true, c1) && CarriedOut(c1, b, j, ok, c2)
    ensures CarriedOut(c0, a + b, i + j, ok, c2)
  {
    ExecParts(c0, a, b, i, j);
  }

  lemma ThenNothing(c0: Cloud, a: seq<Call>, b: seq<Call>, i: nat, c1: Cloud)
    requires CarriedOut(c0, a, i, false, c1)
    ensures CarriedOut(c0, a + b, i, false, c1)
  {
    ExecNone(c1, b);
    ExecParts(c0, a, b, i, 0);
  }

  /** A second phase follows only when the first one has gone well. */
  lemma Then(c0: Cloud, a: seq<Call>, b: seq<Call>, i: nat, done: bool, c1: Cloud, t: nat, ok: bool, c2: Cloud)
    returns (j: nat)
    requires CarriedOut(c0, a, i, done, c1)
    requires if done then CarriedOut(c1, b, t, ok, c2) else !ok && c2 == c1
    ensures CarriedOut(c0, a + b, j, ok, c2)
  {
    if done {
      ThenMore(c0, a, b, i, t, ok, c1, c2);
      j := i + t;
    } else {
      ThenNothing(c0, a, b, i, c1);
      j := i;
    }
  }

  /** The calls of one change set, phase by phase. */
  ghost predicate Phased(cfg: Account, ch: Changes, index: RecordIndex, a: seq<Call>, b: seq<Call>, d: seq<Call>) {
    && a == Flatten(CreateBlocks(cfg, ch.create)) && b == Flatten(UpdateBlocks(cfg, ch.update, index))
    && d == Flatten(DeleteBlocks(ch.delete, index))
  }

  lemma PhasedCalls(cfg: Account, ch: Changes, index: RecordIndex, a: seq<Call>, b: seq<Call>, d: seq<Call>)
    requires Phased(cfg, ch, index, a, b, d)
    ensures Calls(cfg, ch, index) == a + b + d
  {
    FlattenAppend(CreateBlocks(cfg, ch.create), UpdateBlocks(cfg, ch.update, index));
    FlattenAppend(CreateBlocks(cfg, ch.create) + UpdateBlocks(cfg, ch.update, index), DeleteBlocks(ch.delete, index));
  }

  /** The first two loops of `ApplyChanges`. */
  method WriteUpserts(api: CloudApi, cfg: Account, ch: Changes, index: RecordIndex, ghost a: seq<Call>,
                      ghost b: seq<Call>, ghost d: seq<Call>)
    returns (ok: bool, ghost j: nat)
    requires Phased(cfg, ch, index, a, b, d)
    modifies api`cloud, api`failedWrites
    ensures CarriedOut(old(api.cloud), a + b, j, ok, api.cloud)
    ensures ok <==> api.failedWrites == old(api.failedWrites) && NoZone !in a + b
  {
    ghost var c0, i, t := api.cloud, 0, 0;
    ok, i := WriteCreates(api, cfg, ch.create, a);
    ghost var c1, done := api.cloud, ok;
    if ok {
      ok, t := WriteUpdates(api, cfg, ch.update, index, b);
    }
    j := Then(c0, a, b, i, done, c1, t, ok, api.cloud);
  }

  /** All three loops. */
  method WritePhases(api: CloudApi, cfg: Account, ch: Changes, index: RecordIndex, ghost a: seq<Call>,
                     ghost b: seq<Call>, ghost d: seq<Call>)
    returns (ok: bool, ghost j: nat)
    requires Phased(cfg, ch, index, a, b, d)
    modifies api`cloud, api`failedWrites
    ensures CarriedOut(old(api.cloud), a + b + d, j, ok, api.cloud)
    ensures ok <==> api.failedWrites == old(api.failedWrites) && NoZone !in a + b + d
  {
    ghost var c0, i, t := api.cloud, 0, 0;
    ok, i := WriteUpserts(api, cfg, ch, index, a, b, d);
    ghost var c1, done := api.cloud, ok;
    if ok {
      ok, t := WriteDeletes(api, ch.delete, index, d);
    }
    j := Then(c0, a + b, d, i, done, c1, t, ok, api.cloud);
  }

  lemma ResolvedNoZone(cfg: Account, ch: Changes, index: RecordIndex)
    requires Resolves(cfg, ch)
    ensures NoZone !in Calls(cfg, ch, index)
  {
    if NoZone in Calls(cfg, ch, index) {
      var i := FlattenMember(Blocks(cfg, ch, index), NoZone);
      BlockKeys(cfg, ch, index);
      BlockAt(cfg, ch, index, i);
      var e := InOrderOf(ch)[i];
      if i < |ch.create| {
        assert e in ch.create;
        NoZoneInCreates(cfg, e);
      } else if i < |ch.create| + |ch.update| {
        assert e in ch.update;
        NoZoneInCreates(cfg, e);
      }
    }
  }

  lemma NoZoneInCreates(cfg: Account, e: Endpoint)
    requires Longest(cfg.zones, e.name) != ""
    ensures NoZone !in CreateCalls(cfg, e)
  {
  }

  /** No call failed, and every name that had to be created has an accessible zone. */
  ghost predicate Undisturbed(readsFine: bool, writesFine: bool, cfg: Account, ch: Changes, index: RecordIndex) {
    readsFine && writesFine && NoZone !in Calls(cfg, ch, index)
  }

  /** `ApplyChanges`: reads, then writes until it is done or a call fails. If it writes at all, what
      has happened to the store is always the first `done` of the calls the change set stands for. */
  method ApplyChanges(api: CloudApi, proxied: bool, ch: Changes)
    returns (ok: bool, ghost index: RecordIndex, ghost done: nat)
    requires api.Valid()
    modifies api
    ensures Applied(old(api.cloud), Account(api.zones, proxied), ch, index, done, ok, api.cloud)
    ensures ok <==> Undisturbed(api.failedReads == old(api.failedReads), api.failedWrites == old(api.failedWrites),
                                Account(api.zones, proxied), ch, index)
    ensures api.Valid()
  {
    var zones;
    ok, zones := api.ListZones();
    if !ok {
      return false, map[], 0;
    }
    var cfg := Account(zones, proxied);
    var refs;
    ok, refs := BuildIndex(api, zones);
    if !ok {
      return false, map[], 0;
    }
    index := refs;
    ghost var c0 := api.cloud;
    ghost var a, b := Flatten(CreateBlocks(cfg, ch.create)), Flatten(UpdateBlocks(cfg, ch.update, refs));
    ghost var d := Flatten(DeleteBlocks(ch.delete, refs));
    PhasedCalls(cfg, ch, refs, a, b, d);
    ok, done := WritePhases(api, cfg, ch, refs, a, b, d);
    CallsKeepZones(c0, cfg, ch, refs, done);
  }

  /** The call creates records in listed zones only. */
  predicate InAccount(zones: seq<string>, call: Call) {
    call.Create? ==> call.rec.zone in zones
  }

  lemma {:induction false} ExecKeepsZones(c: Cloud, calls: seq<Call>, zones: seq<string>)
    requires c.Valid() && InZones(c, zones) && forall call :: call in calls ==> InAccount(zones, call)
    ensures Exec(c, calls).Valid() && InZones(Exec(c, calls), zones)
  {
    if calls != [] {
      assert calls[|calls| - 1] in calls;
      ExecKeepsZones(c, calls[..|calls| - 1], zones);
    }
  }

  lemma CreatesInAccount(cfg: Account, e: Endpoint, call: Call)
    requires (forall z :: z in cfg.zones ==> Undotted(z) == z) && call in CreateCalls(cfg, e)
    ensures InAccount(cfg.zones, call)
  {
    LongestIsLongest(cfg.zones, e.name);
  }

  lemma UpdatesInAccount(cfg: Account, e: Endpoint, refs: seq<nat>, call: Call)
    requires (forall z :: z in cfg.zones ==> Undotted(z) == z) && call in UpdateCalls(cfg, e, refs)
    ensures InAccount(cfg.zones, call)
  {
    if call.Create? {
      assert call in CreateCalls(cfg, e);
      CreatesInAccount(cfg, e, call);
    }
  }

  lemma BlockInAccount(cfg: Account, ch: Changes, index: RecordIndex, i: nat, call: Call)
    requires forall z :: z in cfg.zones ==> Undotted(z) == z
    requires i < |Blocks(cfg, ch, index)| && call in Blocks(cfg, ch, index)[i].calls
    ensures InAccount(cfg.zones, call)
  {
    BlockKeys(cfg, ch, index);
    BlockAt(cfg, ch, index, i);
    var e := InOrderOf(ch)[i];
    if i < |ch.create| {
      CreatesInAccount(cfg, e, call);
    } else if i < |ch.create| + |ch.update| {
      UpdatesInAccount(cfg, e, RefsAt(index, ZoneKey(e.Key())), call);
    }
  }

  lemma CallsKeepZones(c: Cloud, cfg: Account, ch: Changes, index: RecordIndex, j: nat)
    requires c.Valid() && InZones(c, cfg.zones) && (forall z :: z in cfg.zones ==> Undotted(z) == z)
      && j <= |Calls(cfg, ch, index)|
    ensures After(c, cfg, ch, index, j).Valid() && InZones(After(c, cfg, ch, index, j), cfg.zones)
  {
    forall call | call in Calls(cfg, ch, index) ensures InAccount(cfg.zones, call) {
      var i := FlattenMember(Blocks(cfg, ch, index), call);
      BlockInAccount(cfg, ch, index, i, call);
    }
    ExecKeepsZones(c, Calls(cfg, ch, index)[..j], cfg.zones);
  }

  /** Some index exists for every store. */
  lemma {:induction false} SomeIndex(got: map<nat, CfRecord>, n: nat) returns (index: RecordIndex)
    ensures Indexes(Cloud(got, n), index)
    decreases |got|
  {
    if got == map[] {
      index := map[];
      NothingIndexed(n);
    } else {
      var id :| id in got;
      var rest := got - {id};
      assert got == rest[id := got[id]];
      index := SomeIndex(rest, n);
      IndexOne(rest, n, index, id, got[id]);
      index := index[got[id].key := RefsAt(index, got[id].key) + [id]];
    }
  }

  ghost predicate Applied(c: Cloud, cfg: Account, ch: Changes, index: RecordIndex, done: nat, ok: bool, c': Cloud) {
    || (!ok && c' == c)
    || (&& Indexes(c, index) && done <= |Calls(cfg, ch, index)| && c' == After(c, cfg, ch, index, done)
        && (ok ==> done == |Calls(cfg, ch, index)| && NoZone !in Calls(cfg, ch, index)))
  }
}
