/** What the Cloudflare provider writes and what it reads back
    (internal/provider/cloudflare.go). */
module Cloudflare {
  import opened GoText
  import opened Endpoints
  import opened Planning
  import opened Registry
  import opened DnsZone
  import opened ZoneChoice
  import opened TxtContent
  import opened CloudStore

  /** The zones the token can access, and the provider's proxied default. */
  datatype Account = Account(zones: seq<string>, proxied: bool)

  predicate ProxiedFor(cfg: Account, e: Endpoint) {
    e.rtype != TXT && if PROXIED in e.labels then e.labels[PROXIED] == "true" else cfg.proxied
  }

  function TtlFor(cfg: Account, e: Endpoint): int {
    if ProxiedFor(cfg, e) then 1
    else if e.ttl >= 60 then e.ttl
    else 1
  }

  function ContentFor(t: RecordType, s: string): string {
    if t == TXT then QuoteTxt(s) else s
  }

  function ContentOf(rec: CfRecord): string {
    if rec.key.rtype == Known(TXT) then UnquotedTxt(rec.content) else rec.content
  }

  function FormatBool(b: bool): string {
    if b then "true" else "false"
  }

  function LabelsOf(rec: CfRecord): Labels {
    if rec.key.rtype == Known(TXT) then map[] else map[PROXIED := FormatBool(rec.proxied)]
  }

  // ---- reading --------------------------------------------------------------------------

  /** `ids` lists the ids of `sub`, each once. */
  ghost predicate Enumerates(ids: seq<nat>, sub: map<nat, CfRecord>) {
    && (forall id :: id in ids <==> id in sub)
    && (forall i, j :: 0 <= i < j < |ids| ==> ids[i] != ids[j])
  }

  function Contents(sub: map<nat, CfRecord>, ids: seq<nat>): (s: seq<string>)
    requires forall id :: id in ids ==> id in sub
    ensures |s| == |ids| && forall i :: 0 <= i < |ids| ==> s[i] == ContentOf(sub[ids[i]])
  {
    if ids == [] then [] else Contents(sub, ids[..|ids| - 1]) + [ContentOf(sub[ids[|ids| - 1]])]
  }

  /** `e` is the endpoint merged from the records of `sub` in the order `ids`: the TTL and
      the proxied flag are those of the first record. */
  ghost predicate ReadsIn(sub: map<nat, CfRecord>, ids: seq<nat>, e: Endpoint) {
    && ids != [] && Enumerates(ids, sub)
    && e.targets == Contents(sub, ids)
    && e.ttl == sub[ids[0]].ttl && e.labels == LabelsOf(sub[ids[0]])
  }

  ghost predicate ReadsSub(sub: map<nat, CfRecord>, e: Endpoint) {
    exists ids :: ReadsIn(sub, ids, e)
  }

  /** `m` is one reading of the records, whatever order the zones and pages came in. */
  ghost predicate ReadsCloud(c: Cloud, m: map<Key, Endpoint>) {
    && (forall k: Key :: k in m <==> Sub(c, ZoneKey(k)) != map[])
    && (forall k :: k in m ==> m[k].Key() == k && ReadsSub(Sub(c, ZoneKey(k)), m[k]))
  }

  lemma {:induction false} SameContents(sub: map<nat, CfRecord>, ids: seq<nat>, jds: seq<nat>)
    requires forall id :: id in ids ==> id in sub
    requires forall id :: id in jds <==> id in ids
    requires forall i, j :: 0 <= i < j < |ids| ==> ids[i] != ids[j]
    requires forall i, j :: 0 <= i < j < |jds| ==> jds[i] != jds[j]
    ensures multiset(Contents(sub, ids)) == multiset(Contents(sub, jds))
  {
    assert jds != [] ==> jds[0] in jds;
    if ids != [] {
      var init, x := ids[..|ids| - 1], ids[|ids| - 1];
      assert ids == init + [x];
      assert x in jds;
      var p :| 0 <= p < |jds| && jds[p] == x;
      Without(ids, jds, p);
      SameContents(sub, init, jds[..p] + jds[p + 1..]);
      ContentsWithout(sub, jds, p);
      assert Contents(sub, ids) == Contents(sub, init) + [ContentOf(sub[x])];
    }
  }

  lemma Without(ids: seq<nat>, jds: seq<nat>, p: nat)
    requires ids != [] && p < |jds| && jds[p] == ids[|ids| - 1]
    requires forall id :: id in jds <==> id in ids
    requires forall i, j :: 0 <= i < j < |ids| ==> ids[i] != ids[j]
    requires forall i, j :: 0 <= i < j < |jds| ==> jds[i] != jds[j]
    ensures var init, rest := ids[..|ids| - 1], jds[..p] + jds[p + 1..];
      && (forall id :: id in rest <==> id in init)
      && (forall i, j :: 0 <= i < j < |rest| ==> rest[i] != rest[j])
  {
    var init, rest, x := ids[..|ids| - 1], jds[..p] + jds[p + 1..], jds[p];
    assert ids == init + [x] && jds == jds[..p] + [x] + jds[p + 1..];
    assert x !in init && x !in rest;
    forall id ensures id in rest <==> id in init {
      assert id in jds <==> id in rest || id == x;
      assert id in ids <==> id in init || id == x;
    }
  }

  lemma ContentsAppend(sub: map<nat, CfRecord>, a: seq<nat>, b: seq<nat>)
    requires forall id :: id in a || id in b ==> id in sub
    ensures Contents(sub, a + b) == Contents(sub, a) + Contents(sub, b)
  {
  }

  lemma MiddleCounts(a: seq<string>, v: string, b: seq<string>)
    ensures multiset(a + ([v] + b)) == multiset(a + b) + multiset{v}
  {
  }

  lemma ContentsMiddle(sub: map<nat, CfRecord>, a: seq<nat>, x: nat, b: seq<nat>)
    requires x in sub && forall id :: id in a || id in b ==> id in sub
    ensures multiset(Contents(sub, a + ([x] + b))) == multiset(Contents(sub, a + b)) + multiset{ContentOf(sub[x])}
  {
    ContentsAppend(sub, a, [x] + b);
    ContentsAppend(sub, [x], b);
    ContentsAppend(sub, a, b);
    assert Contents(sub, [x]) == [ContentOf(sub[x])];
    MiddleCounts(Contents(sub, a), ContentOf(sub[x]), Contents(sub, b));
  }

  lemma ContentsWithout(sub: map<nat, CfRecord>, jds: seq<nat>, p: nat)
    requires p < |jds| && forall id :: id in jds ==> id in sub
    ensures forall id :: id in jds[..p] + jds[p + 1..] ==> id in sub
    ensures multiset(Contents(sub, jds)) ==
      multiset(Contents(sub, jds[..p] + jds[p + 1..])) + multiset{ContentOf(sub[jds[p]])}
  {
    assert jds == jds[..p] + ([jds[p]] + jds[p + 1..]);
    ContentsMiddle(sub, jds[..p], jds[p], jds[p + 1..]);
  }

  /** One TTL and one proxied flag for all records. */
  ghost predicate Uniform(sub: map<nat, CfRecord>) {
    forall i, j :: i in sub && j in sub ==> sub[i].ttl == sub[j].ttl && LabelsOf(sub[i]) == LabelsOf(sub[j])
  }

  lemma ReadingsSameBag(sub: map<nat, CfRecord>, g: Endpoint, h: Endpoint)
    requires ReadsSub(sub, g) && ReadsSub(sub, h)
    ensures multiset(g.targets) == multiset(h.targets)
  {
    var ids :| ReadsIn(sub, ids, g);
    var jds :| ReadsIn(sub, jds, h);
    SameContents(sub, ids, jds);
  }

  lemma ReadingHead(sub: map<nat, CfRecord>, h: Endpoint) returns (id: nat)
    requires ReadsSub(sub, h)
    ensures id in sub && h.ttl == sub[id].ttl && h.labels == LabelsOf(sub[id])
  {
    var ids :| ReadsIn(sub, ids, h);
    id := ids[0];
    assert id in ids;
  }

  /** Readings of uniform records agree in all that a plan looks at. */
  lemma UniformReadingsAgree(sub: map<nat, CfRecord>, e: Endpoint, g: Endpoint, h: Endpoint)
    requires Uniform(sub) && ReadsSub(sub, g) && ReadsSub(sub, h)
    ensures Same(e, g) <==> Same(e, h)
  {
    ReadingsSameBag(sub, g, h);
    var i := ReadingHead(sub, g);
    var j := ReadingHead(sub, h);
  }

  // ---- writing --------------------------------------------------------------------------

  function RecordFor(cfg: Account, e: Endpoint, target: string): CfRecord {
    CfRecord(Longest(cfg.zones, e.name), ZoneKey(e.Key()), ContentFor(e.rtype, target), TtlFor(cfg, e),
             ProxiedFor(cfg, e))
  }

  /** One record per target. */
  function RecordsFor(cfg: Account, e: Endpoint): (rs: seq<CfRecord>)
    ensures |rs| == |e.targets|
  {
    seq(|e.targets|, i requires 0 <= i < |e.targets| => RecordFor(cfg, e, e.targets[i]))
  }

  function CreatesOf(rs: seq<CfRecord>): (calls: seq<Call>)
    ensures |calls| == |rs| && forall i :: 0 <= i < |rs| ==> calls[i] == Create(rs[i])
  {
    seq(|rs|, i requires 0 <= i < |rs| => Create(rs[i]))
  }

  /** `create`. */
  function CreateCalls(cfg: Account, e: Endpoint): (calls: seq<Call>)
    ensures Longest(cfg.zones, e.name) != "" ==> |calls| == |e.targets|
  {
    if Longest(cfg.zones, e.name) == "" then [NoZone] else CreatesOf(RecordsFor(cfg, e))
  }

  /** `del`. */
  function DeleteCalls(refs: seq<nat>, k: RRKey): (calls: seq<Call>)
    ensures |calls| == |refs|
  {
    seq(|refs|, i requires 0 <= i < |refs| => Delete(refs[i], k))
  }

  predicate InPlace(e: Endpoint, refs: seq<nat>) {
    |refs| == 1 && |e.targets| == 1
  }

  /** The body of the update loop: a single value in place, anything else by replacing all of it. */
  function UpdateCalls(cfg: Account, e: Endpoint, refs: seq<nat>): seq<Call> {
    if InPlace(e, refs)
    then [Update(refs[0], ZoneKey(e.Key()), ContentFor(e.rtype, e.targets[0]), TtlFor(cfg, e), ProxiedFor(cfg, e))]
    else DeleteCalls(refs, ZoneKey(e.Key())) + CreateCalls(cfg, e)
  }

  type RecordIndex = map<RRKey, seq<nat>>

  function RefsAt(index: RecordIndex, k: RRKey): seq<nat> {
    if k in index then index[k] else []
  }

  /** The index built before anything is written. */
  ghost predicate Indexes(c: Cloud, index: RecordIndex) {
    forall k :: Enumerates(RefsAt(index, k), Sub(c, k))
  }

  function CreateBlocks(cfg: Account, es: seq<Endpoint>): (bs: seq<Block>)
    ensures |bs| == |es|
  {
    seq(|es|, i requires 0 <= i < |es| => Block(ZoneKey(es[i].Key()), CreateCalls(cfg, es[i])))
  }

  function UpdateBlocks(cfg: Account, es: seq<Endpoint>, index: RecordIndex): (bs: seq<Block>)
    ensures |bs| == |es|
  {
    seq(|es|, i requires 0 <= i < |es| =>
      Block(ZoneKey(es[i].Key()), UpdateCalls(cfg, es[i], RefsAt(index, ZoneKey(es[i].Key())))))
  }

  function DeleteBlocks(es: seq<Endpoint>, index: RecordIndex): (bs: seq<Block>)
    ensures |bs| == |es|
  {
    seq(|es|, i requires 0 <= i < |es| =>
      Block(ZoneKey(es[i].Key()), DeleteCalls(RefsAt(index, ZoneKey(es[i].Key())), ZoneKey(es[i].Key()))))
  }

  /** All calls of `ApplyChanges`, one block per changed endpoint. */
  function Blocks(cfg: Account, ch: Changes, index: RecordIndex): seq<Block> {
    CreateBlocks(cfg, ch.create) + UpdateBlocks(cfg, ch.update, index) + DeleteBlocks(ch.delete, index)
  }

  function Calls(cfg: Account, ch: Changes, index: RecordIndex): seq<Call> {
    Flatten(Blocks(cfg, ch, index))
  }

  /** Every name that is created or rewritten has an accessible zone. */
  ghost predicate Resolves(cfg: Account, ch: Changes) {
    forall e :: e in ch.create || e in ch.update ==> Longest(cfg.zones, e.name) != ""
  }

  lemma CreateBlockFor(c: Cloud, cfg: Account, e: Endpoint)
    ensures BlockFor(c, Block(ZoneKey(e.Key()), CreateCalls(cfg, e)))
  {
  }

  lemma DeleteBlockFor(c: Cloud, refs: seq<nat>, k: RRKey)
    requires Enumerates(refs, Sub(c, k))
    ensures BlockFor(c, Block(k, DeleteCalls(refs, k)))
  {
    assert forall i :: 0 <= i < |refs| ==> refs[i] in refs;
  }

  lemma UpdateBlockFor(c: Cloud, cfg: Account, e: Endpoint, refs: seq<nat>)
    requires Enumerates(refs, Sub(c, ZoneKey(e.Key())))
    ensures BlockFor(c, Block(ZoneKey(e.Key()), UpdateCalls(cfg, e, refs)))
  {
    CreateBlockFor(c, cfg, e);
    DeleteBlockFor(c, refs, ZoneKey(e.Key()));
    if InPlace(e, refs) { assert refs[0] in refs; }
  }

  /** The changes whose blocks come first, in block order. */
  function InOrderOf(ch: Changes): seq<Endpoint> {
    ch.create + ch.update + ch.delete
  }

  lemma BlockKeys(cfg: Account, ch: Changes, index: RecordIndex)
    ensures |Blocks(cfg, ch, index)| == |InOrderOf(ch)|
    ensures forall i :: 0 <= i < |InOrderOf(ch)| ==> Blocks(cfg, ch, index)[i].key == ZoneKey(InOrderOf(ch)[i].Key())
  {
  }

  lemma OrderDistinct(ch: Changes)
    requires KeyDisjoint(ch)
    ensures DistinctKeys(InOrderOf(ch))
  {
    DistinctAppend(ch.create, ch.update);
    DistinctAppend(ch.create + ch.update, ch.delete);
  }

  lemma BlockAt(cfg: Account, ch: Changes, index: RecordIndex, i: nat)
    requires i < |InOrderOf(ch)|
    ensures i < |Blocks(cfg, ch, index)|
    ensures var e := InOrderOf(ch)[i]; var k := ZoneKey(e.Key());
      Blocks(cfg, ch, index)[i] == Block(k,
        if i < |ch.create| then CreateCalls(cfg, e)
        else if i < |ch.create| + |ch.update| then UpdateCalls(cfg, e, RefsAt(index, k))
        else DeleteCalls(RefsAt(index, k), k))
  {
  }

  lemma BlocksFor(c: Cloud, cfg: Account, ch: Changes, index: RecordIndex, i: nat)
    requires Indexes(c, index) && i < |InOrderOf(ch)|
    ensures BlockFor(c, Blocks(cfg, ch, index)[i])
  {
    var e := InOrderOf(ch)[i];
    BlockAt(cfg, ch, index, i);
    CreateBlockFor(c, cfg, e);
    UpdateBlockFor(c, cfg, e, RefsAt(index, ZoneKey(e.Key())));
    DeleteBlockFor(c, RefsAt(index, ZoneKey(e.Key())), ZoneKey(e.Key()));
  }

  /** Key-disjoint changes become blocks that do not meet: what makes the early index sound. */
  lemma BlocksPrepared(c: Cloud, cfg: Account, ch: Changes, index: RecordIndex)
    requires c.Valid() && Indexes(c, index) && KeyDisjoint(ch)
    ensures Prepared(c, Blocks(cfg, ch, index))
  {
    var bs := Blocks(cfg, ch, index);
    BlockKeys(cfg, ch, index);
    forall i | 0 <= i < |bs| ensures BlockFor(c, bs[i]) {
      BlocksFor(c, cfg, ch, index, i);
    }
    OrderDistinct(ch);
  }

  // ---- what one block does ------------------------------------------------------------------

  function Span(n: nat, t: nat): (ids: set<nat>)
    ensures forall id: nat :: id in ids <==> n <= id < n + t
  {
    if t == 0 then {} else Span(n, t - 1) + {n + t - 1}
  }

  /** The records `rs` under consecutive ids from `n` on. */
  function FreshRecords(n: nat, rs: seq<CfRecord>): map<nat, CfRecord> {
    map id | id in Span(n, |rs|) :: rs[id - n]
  }

  /** `c'` is `c` with the records `added` under the next ids. */
  ghost predicate Extends(c: Cloud, added: map<nat, CfRecord>, t: nat, c': Cloud) {
    c'.recs == c.recs + added && c'.next == c.next + t
  }

  lemma ExtendNone(c: Cloud, rs: seq<CfRecord>)
    ensures Extends(c, FreshRecords(c.next, rs[..0]), 0, c)
  {
    assert FreshRecords(c.next, rs[..0]) == map[];
  }

  lemma ExtendOne(c: Cloud, rs: seq<CfRecord>, t: nat, c': Cloud)
    requires t < |rs| && Extends(c, FreshRecords(c.next, rs[..t]), t, c')
    ensures Extends(c, FreshRecords(c.next, rs[..t + 1]), t + 1, Do(c', Create(rs[t])))
  {
    FreshTake(c.next, rs, t + 1);
    MergeUpdate(c.recs, FreshRecords(c.next, rs[..t]), c.next + t, rs[t]);
  }

  lemma {:induction false} CreateEffect(c: Cloud, rs: seq<CfRecord>, t: nat)
    requires t <= |rs|
    ensures Extends(c, FreshRecords(c.next, rs[..t]), t, Exec(c, CreatesOf(rs)[..t]))
  {
    if t == 0 {
      ExecNone(c, CreatesOf(rs));
      ExtendNone(c, rs);
    } else {
      CreateEffect(c, rs, t - 1);
      ExecOneMore(c, CreatesOf(rs), t - 1);
      ExtendOne(c, rs, t - 1, Exec(c, CreatesOf(rs)[..t - 1]));
    }
  }

  lemma FreshTake(n: nat, rs: seq<CfRecord>, t: nat)
    requires 0 < t <= |rs|
    ensures FreshRecords(n, rs[..t]) == FreshRecords(n, rs[..t - 1])[n + t - 1 := rs[t - 1]]
  {
    assert rs[..t][..t - 1] == rs[..t - 1];
  }

  lemma MergeUpdate(recs: map<nat, CfRecord>, m: map<nat, CfRecord>, id: nat, r: CfRecord)
    ensures recs + m[id := r] == (recs + m)[id := r]
  {
  }

  lemma SubOfMerge(c: Cloud, c': Cloud, added: map<nat, CfRecord>, k: RRKey)
    requires c'.recs == c.recs + added && (forall id :: id in added ==> added[id].key == k)
      && forall id :: id in c.recs ==> id !in added
    ensures Sub(c', k) == Sub(c, k) + added
  {
  }

  lemma RecordsAtKey(cfg: Account, e: Endpoint, i: nat)
    requires i < |e.targets|
    ensures RecordsFor(cfg, e)[i] == RecordFor(cfg, e, e.targets[i]) && RecordsFor(cfg, e)[i].key == ZoneKey(e.Key())
  {
  }

  lemma CreateBlockEffect(c: Cloud, cfg: Account, e: Endpoint, t: nat)
    requires c.Valid() && Longest(cfg.zones, e.name) != "" && t <= |e.targets|
    ensures var k := ZoneKey(e.Key());
      Sub(Exec(c, CreateCalls(cfg, e)[..t]), k) == Sub(c, k) + FreshRecords(c.next, RecordsFor(cfg, e)[..t])
  {
    var rs := RecordsFor(cfg, e);
    forall i | 0 <= i < |rs| ensures rs[i].key == ZoneKey(e.Key()) { RecordsAtKey(cfg, e, i); }
    CreatesAtKey(c, rs, t, ZoneKey(e.Key()));
  }

  lemma CreatesAtKey(c: Cloud, rs: seq<CfRecord>, t: nat, k: RRKey)
    requires c.Valid() && t <= |rs| && forall i :: 0 <= i < |rs| ==> rs[i].key == k
    ensures Sub(Exec(c, CreatesOf(rs)[..t]), k) == Sub(c, k) + FreshRecords(c.next, rs[..t])
    ensures Exec(c, CreatesOf(rs)[..t]).next == c.next + t
  {
    CreateEffect(c, rs, t);
    SubOfMerge(c, Exec(c, CreatesOf(rs)[..t]), FreshRecords(c.next, rs[..t]), k);
  }

  lemma {:induction false} DeleteEffect(c: Cloud, refs: seq<nat>, k: RRKey, t: nat)
    requires t <= |refs|
    ensures var c' := Exec(c, DeleteCalls(refs, k)[..t]);
      c'.recs == c.recs - (set id | id in refs[..t]) && c'.next == c.next
  {
    var calls := DeleteCalls(refs, k)[..t];
    if t > 0 {
      DeleteEffect(c, refs, k, t - 1);
      assert calls[..t - 1] == DeleteCalls(refs, k)[..t - 1];
      assert refs[..t] == refs[..t - 1] + [refs[t - 1]];
    }
  }

  lemma DeleteBlockEffect(c: Cloud, refs: seq<nat>, k: RRKey, t: nat)
    requires t <= |refs|
    ensures Sub(Exec(c, DeleteCalls(refs, k)[..t]), k) == Sub(c, k) - (set id | id in refs[..t])
  {
    DeleteEffect(c, refs, k, t);
  }

  lemma InPlaceEffect(c: Cloud, cfg: Account, e: Endpoint, refs: seq<nat>)
    requires InPlace(e, refs) && Enumerates(refs, Sub(c, ZoneKey(e.Key())))
    ensures Exec(c, []) == c
    ensures var c', k := Exec(c, UpdateCalls(cfg, e, refs)), ZoneKey(e.Key());
      refs[0] in c.recs && Sub(c', k) == map[refs[0] := RecordFor(cfg, e, e.targets[0]).(zone := c.recs[refs[0]].zone)]
  {
    var calls, k := UpdateCalls(cfg, e, refs), ZoneKey(e.Key());
    assert calls[..0] == [] && Exec(c, []) == c;
    assert Exec(c, calls) == Do(c, calls[0]);
    assert refs[0] in refs && refs == [refs[0]];
    var c' := Exec(c, calls);
    forall id ensures id in Sub(c', k) <==> id == refs[0] {
      assert id in Sub(c, k) <==> id in refs;
    }
  }

  lemma ReplaceCalls(cfg: Account, e: Endpoint, refs: seq<nat>, t: nat)
    requires !InPlace(e, refs) && t <= |UpdateCalls(cfg, e, refs)|
    ensures |UpdateCalls(cfg, e, refs)| == |refs| + |CreateCalls(cfg, e)|
    ensures UpdateCalls(cfg, e, refs)[..t] ==
      if t <= |refs| then DeleteCalls(refs, ZoneKey(e.Key()))[..t]
      else DeleteCalls(refs, ZoneKey(e.Key()))[..|refs|] + CreateCalls(cfg, e)[..t - |refs|]
  {
  }

  lemma AllDeleted(c: Cloud, refs: seq<nat>, k: RRKey)
    requires Enumerates(refs, Sub(c, k))
    ensures Sub(Exec(c, DeleteCalls(refs, k)[..|refs|]), k) == map[]
  {
    assert refs[..|refs|] == refs;
    DeleteBlockEffect(c, refs, k, |refs|);
  }

  lemma ReplaceLate(c: Cloud, cfg: Account, e: Endpoint, refs: seq<nat>, t: nat)
    requires c.Valid() && Longest(cfg.zones, e.name) != "" && t <= |e.targets|
    requires Enumerates(refs, Sub(c, ZoneKey(e.Key())))
    ensures var calls := DeleteCalls(refs, ZoneKey(e.Key()))[..|refs|] + CreateCalls(cfg, e)[..t];
      Sub(Exec(c, calls), ZoneKey(e.Key())) == FreshRecords(c.next, RecordsFor(cfg, e)[..t])
  {
    var k, d := ZoneKey(e.Key()), DeleteCalls(refs, ZoneKey(e.Key()))[..|refs|];
    ExecAppend(c, d, CreateCalls(cfg, e)[..t]);
    DeleteEffect(c, refs, k, |refs|);
    AllDeleted(c, refs, k);
    CreateBlockEffect(Exec(c, d), cfg, e, t);
    EmptyPlus(FreshRecords(c.next, RecordsFor(cfg, e)[..t]));
  }

  lemma ReplaceEffect(c: Cloud, cfg: Account, e: Endpoint, refs: seq<nat>, t: nat)
    requires c.Valid() && Longest(cfg.zones, e.name) != "" && !InPlace(e, refs) && t <= |UpdateCalls(cfg, e, refs)|
    requires Enumerates(refs, Sub(c, ZoneKey(e.Key())))
    ensures |UpdateCalls(cfg, e, refs)| == |refs| + |e.targets|
    ensures var k, n := ZoneKey(e.Key()), |refs|;
      Sub(Exec(c, UpdateCalls(cfg, e, refs)[..t]), k) ==
        if t <= n then Sub(c, k) - (set id | id in refs[..t]) else FreshRecords(c.next, RecordsFor(cfg, e)[..t - n])
  {
    ReplaceCalls(cfg, e, refs, t);
    if t <= |refs| {
      DeleteBlockEffect(c, refs, ZoneKey(e.Key()), t);
    } else {
      ReplaceLate(c, cfg, e, refs, t - |refs|);
    }
  }

  lemma EmptyPlus(m: map<nat, CfRecord>)
    ensures map[] + m == m
  {
  }

  // ---- the records of one key, after any number of calls ---------------------------------------

  /** The record the provider writes for one target of `e`; an update in place keeps its zone. */
  predicate Carries(cfg: Account, e: Endpoint, target: string, rec: CfRecord) {
    && rec.key == ZoneKey(e.Key()) && rec.content == ContentFor(e.rtype, target)
    && rec.ttl == TtlFor(cfg, e) && rec.proxied == ProxiedFor(cfg, e)
  }

  ghost predicate HoldsIn(cfg: Account, e: Endpoint, sub: map<nat, CfRecord>, ids: seq<nat>) {
    && Enumerates(ids, sub) && |ids| == |e.targets|
    && forall i :: 0 <= i < |ids| ==> SameButZone(RecordsFor(cfg, e)[i], sub[ids[i]])
  }

  predicate SameButZone(a: CfRecord, b: CfRecord) {
    a.key == b.key && a.content == b.content && a.ttl == b.ttl && a.proxied == b.proxied
  }

  lemma HoldsCarries(cfg: Account, e: Endpoint, sub: map<nat, CfRecord>, ids: seq<nat>, i: nat)
    requires HoldsIn(cfg, e, sub, ids) && i < |ids|
    ensures ids[i] in sub && Carries(cfg, e, e.targets[i], sub[ids[i]])
  {
    assert ids[i] in ids;
    RecordsAtKey(cfg, e, i);
  }

  /** `sub` consists of one record per target of `e`. */
  ghost predicate Holds(cfg: Account, e: Endpoint, sub: map<nat, CfRecord>) {
    exists ids :: HoldsIn(cfg, e, sub, ids)
  }

  /** Every record of `sub` was written for `e`. */
  ghost predicate PartOf(cfg: Account, e: Endpoint, sub: map<nat, CfRecord>) {
    forall id :: id in sub ==> exists t :: t in e.targets && Carries(cfg, e, t, sub[id])
  }

  ghost predicate Fewer(sub': map<nat, CfRecord>, sub: map<nat, CfRecord>) {
    forall id :: id in sub' ==> id in sub && sub'[id] == sub[id]
  }

  lemma HoldsIsPart(cfg: Account, e: Endpoint, sub: map<nat, CfRecord>)
    requires Holds(cfg, e, sub)
    ensures PartOf(cfg, e, sub)
  {
    var ids :| HoldsIn(cfg, e, sub, ids);
    forall id | id in sub ensures exists t :: t in e.targets && Carries(cfg, e, t, sub[id]) {
      assert id in ids;
      var i :| 0 <= i < |ids| && ids[i] == id;
      HoldsCarries(cfg, e, sub, ids, i);
      assert e.targets[i] in e.targets;
    }
  }

  lemma PartIsUniform(cfg: Account, e: Endpoint, sub: map<nat, CfRecord>)
    requires PartOf(cfg, e, sub)
    ensures Uniform(sub)
  {
  }

  lemma FreshIsPart(cfg: Account, e: Endpoint, n: nat, t: nat)
    requires t <= |e.targets|
    ensures PartOf(cfg, e, FreshRecords(n, RecordsFor(cfg, e)[..t]))
  {
    var rs := RecordsFor(cfg, e)[..t];
    var sub := FreshRecords(n, rs);
    forall id: nat | id in sub ensures exists v :: v in e.targets && Carries(cfg, e, v, sub[id]) {
      FreshCarries(cfg, e, id - n);
      assert sub[id] == rs[id - n] == RecordsFor(cfg, e)[id - n];
      assert e.targets[id - n] in e.targets;
    }
  }

  function Ids(n: nat, t: nat): (ids: seq<nat>)
    ensures |ids| == t && forall i :: 0 <= i < t ==> ids[i] == n + i
  {
    seq(t, i requires 0 <= i < t => n + i)
  }

  lemma IdsEnumerate(n: nat, rs: seq<CfRecord>)
    ensures Enumerates(Ids(n, |rs|), FreshRecords(n, rs))
  {
    var ids, sub := Ids(n, |rs|), FreshRecords(n, rs);
    forall id: nat | id in sub ensures id in ids {
      assert ids[id - n] == id;
    }
  }

  lemma FreshCarries(cfg: Account, e: Endpoint, i: nat)
    requires i < |e.targets|
    ensures Carries(cfg, e, e.targets[i], RecordsFor(cfg, e)[i])
  {
    RecordsAtKey(cfg, e, i);
  }

  lemma FreshHolds(cfg: Account, e: Endpoint, n: nat)
    ensures Holds(cfg, e, FreshRecords(n, RecordsFor(cfg, e)))
  {
    var rs := RecordsFor(cfg, e);
    var ids, sub := Ids(n, |rs|), FreshRecords(n, rs);
    IdsEnumerate(n, rs);
    forall i | 0 <= i < |ids| ensures ids[i] in sub && SameButZone(rs[i], sub[ids[i]]) {
      FreshAt(n, rs, i);
    }
    assert HoldsIn(cfg, e, sub, ids);
  }

  lemma FreshAt(n: nat, rs: seq<CfRecord>, i: nat)
    requires i < |rs|
    ensures n + i in FreshRecords(n, rs) && FreshRecords(n, rs)[n + i] == rs[i]
  {
    assert n + i in Span(n, |rs|);
  }

  lemma {:induction false} ProgressFull(blocks: seq<Block>, i: nat, n: nat, j: nat)
    requires i < n <= |blocks| && j >= |Flatten(blocks[..n])|
    ensures Progress(blocks, i, j) == |blocks[i].calls|
  {
    FlattenSplit(blocks[..n], i);
    assert blocks[..n][..i] == blocks[..i];
  }

  ghost function After(c: Cloud, cfg: Account, ch: Changes, index: RecordIndex, j: nat): Cloud
    requires j <= |Calls(cfg, ch, index)|
  {
    Exec(c, Calls(cfg, ch, index)[..j])
  }

  /** How many calls the create phase takes. */
  function CreatePhase(cfg: Account, ch: Changes): nat {
    |Flatten(CreateBlocks(cfg, ch.create))|
  }

  /** The changes, the early index and the store they were made for. */
  ghost predicate Applicable(c: Cloud, cfg: Account, ch: Changes, index: RecordIndex) {
    c.Valid() && Indexes(c, index) && KeyDisjoint(ch) && Resolves(cfg, ch)
  }

  lemma AtCreate(c: Cloud, cfg: Account, ch: Changes, index: RecordIndex, j: nat, e: Endpoint) returns (n: nat, t: nat)
    requires Applicable(c, cfg, ch, index) && j <= |Calls(cfg, ch, index)| && e in ch.create
    ensures n >= c.next && t <= |e.targets| && (j >= CreatePhase(cfg, ch) ==> t == |e.targets|)
    ensures var k := ZoneKey(e.Key());
      Sub(After(c, cfg, ch, index, j), k) == Sub(c, k) + FreshRecords(n, RecordsFor(cfg, e)[..t])
  {
    var i :| 0 <= i < |ch.create| && ch.create[i] == e;
    var bs := Blocks(cfg, ch, index);
    BlocksPrepared(c, cfg, ch, index);
    BlockAt(cfg, ch, index, i);
    assert bs[..|ch.create|] == CreateBlocks(cfg, ch.create);
    t := Progress(bs, i, j);
    if j >= CreatePhase(cfg, ch) { ProgressFull(bs, i, |ch.create|, j); }
    var c1 := PrefixEffect(c, bs, j, i);
    n := c1.next;
    CreateBlockEffect(c1, cfg, e, t);
  }

  /** After all calls, a create has added its records to those that were there. */
  lemma AtFullCreate(c: Cloud, cfg: Account, ch: Changes, index: RecordIndex, e: Endpoint) returns (n: nat)
    requires Applicable(c, cfg, ch, index) && e in ch.create
    ensures n >= c.next
    ensures Sub(After(c, cfg, ch, index, |Calls(cfg, ch, index)|), ZoneKey(e.Key())) ==
      Sub(c, ZoneKey(e.Key())) + FreshRecords(n, RecordsFor(cfg, e))
  {
    CompletePhases(cfg, ch, index);
    var t;
    n, t := AtCreate(c, cfg, ch, index, |Calls(cfg, ch, index)|, e);
    assert RecordsFor(cfg, e)[..t] == RecordsFor(cfg, e);
  }

  /** Where nothing was, a finished create leaves exactly its own records. */
  lemma AtFreeCreate(c: Cloud, cfg: Account, ch: Changes, index: RecordIndex, j: nat, e: Endpoint) returns (n: nat)
    requires Applicable(c, cfg, ch, index) && CreatePhase(cfg, ch) <= j <= |Calls(cfg, ch, index)| && e in ch.create
    requires Sub(c, ZoneKey(e.Key())) == map[]
    ensures Sub(After(c, cfg, ch, index, j), ZoneKey(e.Key())) == FreshRecords(n, RecordsFor(cfg, e))
  {
    var t;
    n, t := AtCreate(c, cfg, ch, index, j, e);
    assert RecordsFor(cfg, e)[..t] == RecordsFor(cfg, e);
    EmptyPlus(FreshRecords(n, RecordsFor(cfg, e)[..t]));
  }

  lemma CompletePhases(cfg: Account, ch: Changes, index: RecordIndex)
    ensures CreatePhase(cfg, ch) <= |Calls(cfg, ch, index)|
    ensures forall i :: 0 <= i < |Blocks(cfg, ch, index)| ==>
      Progress(Blocks(cfg, ch, index), i, |Calls(cfg, ch, index)|) == |Blocks(cfg, ch, index)[i].calls|
  {
    var bs := Blocks(cfg, ch, index);
    assert bs == CreateBlocks(cfg, ch.create) + (UpdateBlocks(cfg, ch.update, index) + DeleteBlocks(ch.delete, index));
    FlattenAppend(CreateBlocks(cfg, ch.create), UpdateBlocks(cfg, ch.update, index) + DeleteBlocks(ch.delete, index));
    assert bs[..|bs|] == bs;
    forall i | 0 <= i < |bs| ensures Progress(bs, i, |Flatten(bs)|) == |bs[i].calls| {
      ProgressFull(bs, i, |bs|, |Flatten(bs)|);
    }
  }

  lemma UpdateBlockAt(c: Cloud, cfg: Account, e: Endpoint, refs: seq<nat>, t: nat)
    requires c.Valid() && Longest(cfg.zones, e.name) != "" && t <= |UpdateCalls(cfg, e, refs)|
    requires Enumerates(refs, Sub(c, ZoneKey(e.Key())))
    ensures var sub, sub' := Sub(c, ZoneKey(e.Key())), Sub(Exec(c, UpdateCalls(cfg, e, refs)[..t]), ZoneKey(e.Key()));
      && (Fewer(sub', sub) || PartOf(cfg, e, sub'))
      && (t == |UpdateCalls(cfg, e, refs)| ==> Holds(cfg, e, sub'))
  {
    var k := ZoneKey(e.Key());
    if InPlace(e, refs) {
      InPlaceEffect(c, cfg, e, refs);
      var calls := UpdateCalls(cfg, e, refs);
      assert calls[..0] == [] && calls[..1] == calls;
      if t == 1 {
        RecordsAtKey(cfg, e, 0);
        assert HoldsIn(cfg, e, Sub(Exec(c, calls), k), refs);
        HoldsIsPart(cfg, e, Sub(Exec(c, calls), k));
      }
    } else {
      ReplaceEffect(c, cfg, e, refs, t);
      ReplacedHolds(c, cfg, e, refs, t);
    }
  }

  lemma ReplacedHolds(c: Cloud, cfg: Account, e: Endpoint, refs: seq<nat>, t: nat)
    requires Enumerates(refs, Sub(c, ZoneKey(e.Key()))) && t <= |refs| + |e.targets|
    ensures var sub' := if t <= |refs| then Sub(c, ZoneKey(e.Key())) - (set id | id in refs[..t])
                        else FreshRecords(c.next, RecordsFor(cfg, e)[..t - |refs|]);
      && (Fewer(sub', Sub(c, ZoneKey(e.Key()))) || PartOf(cfg, e, sub'))
      && (t == |refs| + |e.targets| ==> Holds(cfg, e, sub'))
  {
    if t <= |refs| {
      RemovedHolds(cfg, e, Sub(c, ZoneKey(e.Key())), refs, t);
    } else {
      FreshIsPart(cfg, e, c.next, t - |refs|);
      if t == |refs| + |e.targets| {
        FreshHolds(cfg, e, c.next);
        assert RecordsFor(cfg, e)[..t - |refs|] == RecordsFor(cfg, e);
      }
    }
  }

  lemma RemovedHolds(cfg: Account, e: Endpoint, sub: map<nat, CfRecord>, refs: seq<nat>, t: nat)
    requires Enumerates(refs, sub) && t <= |refs|
    ensures var sub' := sub - (set id | id in refs[..t]);
      Fewer(sub', sub) && (t == |refs| + |e.targets| ==> Holds(cfg, e, sub'))
  {
    var sub' := sub - (set id | id in refs[..t]);
    if t == |refs| + |e.targets| {
      assert refs[..t] == refs;
      assert sub' == map[];
      assert HoldsIn(cfg, e, sub', []);
    }
  }

  lemma UpdateBlockOf(cfg: Account, ch: Changes, index: RecordIndex, e: Endpoint) returns (i: nat)
    requires e in ch.update
    ensures i < |Blocks(cfg, ch, index)|
    ensures Blocks(cfg, ch, index)[i] == Block(ZoneKey(e.Key()), UpdateCalls(cfg, e, RefsAt(index, ZoneKey(e.Key()))))
  {
    var p :| 0 <= p < |ch.update| && ch.update[p] == e;
    i := |ch.create| + p;
    MiddleOf(CreateBlocks(cfg, ch.create), UpdateBlocks(cfg, ch.update, index), DeleteBlocks(ch.delete, index), p);
    UpdateBlockIs(cfg, ch.update, index, p);
  }

  lemma UpdateBlockIs(cfg: Account, es: seq<Endpoint>, index: RecordIndex, p: nat)
    requires p < |es|
    ensures var k := ZoneKey(es[p].Key());
      UpdateBlocks(cfg, es, index)[p] == Block(k, UpdateCalls(cfg, es[p], RefsAt(index, k)))
  {
  }

  lemma MiddleOf(a: seq<Block>, b: seq<Block>, d: seq<Block>, p: nat)
    requires p < |b|
    ensures |a| + p < |a + b + d| && (a + b + d)[|a| + p] == b[p]
  {
  }

  lemma OneOf(a: seq<Block>, b: seq<Block>, d: seq<Block>, i: nat)
    requires i < |a| + |b| + |d|
    ensures (a + b + d)[i] == if i < |a| then a[i] else if i < |a| + |b| then b[i - |a|] else d[i - |a| - |b|]
  {
  }

  lemma AtUpdate(c: Cloud, cfg: Account, ch: Changes, index: RecordIndex, j: nat, e: Endpoint)
    requires Applicable(c, cfg, ch, index) && j <= |Calls(cfg, ch, index)| && e in ch.update
    ensures var sub, sub' := Sub(c, ZoneKey(e.Key())), Sub(After(c, cfg, ch, index, j), ZoneKey(e.Key()));
      && (Fewer(sub', sub) || PartOf(cfg, e, sub'))
      && (j == |Calls(cfg, ch, index)| ==> Holds(cfg, e, sub'))
  {
    var refs := RefsAt(index, ZoneKey(e.Key()));
    var i := UpdateBlockOf(cfg, ch, index, e);
    var c1, t := AtBlock(c, cfg, ch, index, j, i, Block(ZoneKey(e.Key()), UpdateCalls(cfg, e, refs)));
    UpdateBlockAt(c1, cfg, e, refs, t);
  }

  lemma DeleteBlockAt(c: Cloud, refs: seq<nat>, k: RRKey, t: nat)
    requires t <= |refs| && Enumerates(refs, Sub(c, k))
    ensures var sub' := Sub(Exec(c, DeleteCalls(refs, k)[..t]), k);
      Fewer(sub', Sub(c, k)) && (t == |refs| ==> sub' == map[])
  {
    DeleteBlockEffect(c, refs, k, t);
    assert refs[..|refs|] == refs;
  }

  /** What the first `j` calls do at the key of block `i`: `t` of the block's own calls. */
  lemma AtBlock(c: Cloud, cfg: Account, ch: Changes, index: RecordIndex, j: nat, i: nat, b: Block)
    returns (c1: Cloud, t: nat)
    requires c.Valid() && Indexes(c, index) && KeyDisjoint(ch) && j <= |Calls(cfg, ch, index)|
    requires i < |Blocks(cfg, ch, index)| && Blocks(cfg, ch, index)[i] == b
    ensures c1.Valid() && Sub(c1, b.key) == Sub(c, b.key) && t <= |b.calls|
    ensures Sub(After(c, cfg, ch, index, j), b.key) == Sub(Exec(c1, b.calls[..t]), b.key)
    ensures j == |Calls(cfg, ch, index)| ==> t == |b.calls|
    ensures t == Progress(Blocks(cfg, ch, index), i, j)
  {
    BlocksPrepared(c, cfg, ch, index);
    if j == |Calls(cfg, ch, index)| { CompletePhases(cfg, ch, index); }
    c1 := PrefixEffect(c, Blocks(cfg, ch, index), j, i);
    t := Progress(Blocks(cfg, ch, index), i, j);
  }

  lemma DeleteBlockOf(cfg: Account, ch: Changes, index: RecordIndex, e: Endpoint) returns (i: nat)
    requires e in ch.delete
    ensures i < |Blocks(cfg, ch, index)|
    ensures Blocks(cfg, ch, index)[i] ==
      Block(ZoneKey(e.Key()), DeleteCalls(RefsAt(index, ZoneKey(e.Key())), ZoneKey(e.Key())))
  {
    var p :| 0 <= p < |ch.delete| && ch.delete[p] == e;
    i := |ch.create| + |ch.update| + p;
    OneOf(CreateBlocks(cfg, ch.create), UpdateBlocks(cfg, ch.update, index), DeleteBlocks(ch.delete, index), i);
  }

  lemma AtDelete(c: Cloud, cfg: Account, ch: Changes, index: RecordIndex, j: nat, e: Endpoint)
    requires Applicable(c, cfg, ch, index) && j <= |Calls(cfg, ch, index)| && e in ch.delete
    ensures var sub, sub' := Sub(c, ZoneKey(e.Key())), Sub(After(c, cfg, ch, index, j), ZoneKey(e.Key()));
      Fewer(sub', sub) && (j == |Calls(cfg, ch, index)| ==> sub' == map[])
  {
    var k := ZoneKey(e.Key());
    var refs := RefsAt(index, k);
    var i := DeleteBlockOf(cfg, ch, index, e);
    var c1, t := AtBlock(c, cfg, ch, index, j, i, Block(k, DeleteCalls(refs, k)));
    DeleteBlockAt(c1, refs, k, t);
  }

  /** A key that no change names keeps its records, ids included, whenever the calls stop. */
  lemma AtOthers(c: Cloud, cfg: Account, ch: Changes, index: RecordIndex, j: nat, l: RRKey)
    requires c.Valid() && Indexes(c, index) && KeyDisjoint(ch) && j <= |Calls(cfg, ch, index)|
    requires forall e :: e in ch.create || e in ch.update || e in ch.delete ==> ZoneKey(e.Key()) != l
    ensures Sub(After(c, cfg, ch, index, j), l) == Sub(c, l)
  {
    var bs := Blocks(cfg, ch, index);
    BlocksPrepared(c, cfg, ch, index);
    BlockKeys(cfg, ch, index);
    forall b | b in bs ensures b.key != l {
      var i :| 0 <= i < |bs| && bs[i] == b;
      assert InOrderOf(ch)[i] in InOrderOf(ch);
    }
    PrefixFrame(c, bs, j, l);
  }

  lemma AfterValid(c: Cloud, cfg: Account, ch: Changes, index: RecordIndex, j: nat)
    requires c.Valid() && Indexes(c, index) && KeyDisjoint(ch) && j <= |Calls(cfg, ch, index)|
    ensures After(c, cfg, ch, index, j).Valid()
  {
    BlocksPrepared(c, cfg, ch, index);
    PrefixLater(c, Blocks(cfg, ch, index), j);
  }

  // ---- the early index stays right -----------------------------------------------------------

  lemma {:induction false} FlattenAt(blocks: seq<Block>, j: nat) returns (i: nat, t: nat)
    requires j < |Flatten(blocks)|
    ensures i < |blocks| && t < |blocks[i].calls| && Flatten(blocks)[j] == blocks[i].calls[t]
    ensures Progress(blocks, i, j) == t
  {
    var n := |blocks| - 1;
    var before := Flatten(blocks[..n]);
    if j >= |before| {
      i, t := n, j - |before|;
    } else {
      i, t := FlattenAt(blocks[..n], j);
      assert blocks[..n][..i] == blocks[..i];
    }
  }

  lemma BlockIndexRight(c: Cloud, cfg: Account, e: Endpoint, refs: seq<nat>, calls: seq<Call>, t: nat)
    requires c.Valid() && Enumerates(refs, Sub(c, ZoneKey(e.Key()))) && t < |calls|
      && (calls[t].Update? || calls[t].Delete?)
    requires calls == CreateCalls(cfg, e) || calls == UpdateCalls(cfg, e, refs)
      || calls == DeleteCalls(refs, ZoneKey(e.Key()))
    ensures var sub, sub' := Sub(c, ZoneKey(e.Key())), Sub(Exec(c, calls[..t]), ZoneKey(e.Key()));
      calls[t].id in sub && calls[t].id in sub' && sub'[calls[t].id] == sub[calls[t].id]
  {
    var k := ZoneKey(e.Key());
    if calls == UpdateCalls(cfg, e, refs) && InPlace(e, refs) {
      assert calls[..0] == [] && Exec(c, []) == c;
      assert refs[0] in refs;
    } else {
      assert calls[..t] == DeleteCalls(refs, k)[..t];
      DeleteBlockEffect(c, refs, k, t);
      assert calls[t].id == refs[t] && refs[t] in refs && refs[t] !in refs[..t];
    }
  }

  /** Every update and delete call, up to the last one, addresses a record that still
      exists, still sits under the key the index was asked for, and is as it was listed. */
  lemma IndexStaysRight(c: Cloud, cfg: Account, ch: Changes, index: RecordIndex, j: nat)
    requires c.Valid() && Indexes(c, index) && KeyDisjoint(ch)
    requires j < |Calls(cfg, ch, index)| && (Calls(cfg, ch, index)[j].Update? || Calls(cfg, ch, index)[j].Delete?)
    ensures var call, c' := Calls(cfg, ch, index)[j], After(c, cfg, ch, index, j);
      call.id in c.recs && call.id in c'.recs && c'.recs[call.id] == c.recs[call.id] && c.recs[call.id].key == call.key
  {
    var bs := Blocks(cfg, ch, index);
    BlocksPrepared(c, cfg, ch, index);
    var i, t := FlattenAt(bs, j);
    var c1 := PrefixEffect(c, bs, j, i);
    BlockKeys(cfg, ch, index);
    BlockAt(cfg, ch, index, i);
    var e := InOrderOf(ch)[i];
    var refs := RefsAt(index, ZoneKey(e.Key()));
    BlockIndexRight(c1, cfg, e, refs, bs[i].calls, t);
    assert BlockFor(c, bs[i]);
    assert bs[i].calls[t] in bs[i].calls;
  }

  // ---- written and read back -----------------------------------------------------------------------

  /** TXT values that survive quoting. */
  predicate Quotable(e: Endpoint) {
    e.rtype == TXT ==> forall t :: t in e.targets ==> Printable(t) && !Wrapped(t)
  }

  lemma ContentBack(cfg: Account, e: Endpoint, target: string, rec: CfRecord)
    requires Quotable(e) && target in e.targets && Carries(cfg, e, target, rec)
    ensures ContentOf(rec) == target
  {
    if e.rtype == TXT { RoundTripExact(target); }
  }

  lemma ContentsBack(cfg: Account, e: Endpoint, sub: map<nat, CfRecord>, ids: seq<nat>)
    requires Quotable(e) && HoldsIn(cfg, e, sub, ids)
    ensures Contents(sub, ids) == e.targets
  {
    forall i | 0 <= i < |ids| ensures ContentOf(sub[ids[i]]) == e.targets[i] {
      HoldsCarries(cfg, e, sub, ids, i);
      ContentBack(cfg, e, e.targets[i], sub[ids[i]]);
    }
  }

  lemma HoldsReads(cfg: Account, e: Endpoint, sub: map<nat, CfRecord>, h: Endpoint)
    requires Quotable(e) && Holds(cfg, e, sub) && ReadsSub(sub, h)
    ensures multiset(h.targets) == multiset(e.targets) && h.ttl == TtlFor(cfg, e)
    ensures h.labels == if e.rtype == TXT then map[] else map[PROXIED := FormatBool(ProxiedFor(cfg, e))]
  {
    HoldsIsPart(cfg, e, sub);
    var id := ReadingHead(sub, h);
    var ids :| HoldsIn(cfg, e, sub, ids);
    var jds :| ReadsIn(sub, jds, h);
    ContentsBack(cfg, e, sub, ids);
    SameContents(sub, ids, jds);
  }

  /** The provider stores the endpoint as asked for: a TTL it does not round away, a proxied label it understands. */
  predicate Stable(cfg: Account, e: Endpoint) {
    && (e.ttl == 0 || e.ttl == 1 || (e.ttl >= 60 && !ProxiedFor(cfg, e)))
    && (PROXIED in e.labels ==> e.labels[PROXIED] == "true" || e.labels[PROXIED] == "false")
  }

  /** A created or rewritten record reads back as needing no further update exactly when it is stable. */
  lemma CfReadBackExact(cfg: Account, e: Endpoint, sub: map<nat, CfRecord>, h: Endpoint)
    requires e.rtype != TXT && Holds(cfg, e, sub) && ReadsSub(sub, h)
    ensures Same(e, h) <==> Stable(cfg, e)
  {
    HoldsReads(cfg, e, sub, h);
  }

  /** `e` reads back with its targets, and needs no further update exactly when it is stable. */
  ghost predicate ReadsBack(cfg: Account, e: Endpoint, m: map<Key, Endpoint>) {
    && e.Key() in m
    && multiset(m[e.Key()].targets) == multiset(e.targets) && m[e.Key()].ttl == TtlFor(cfg, e)
    && (e.rtype != TXT ==> (Same(e, m[e.Key()]) <==> Stable(cfg, e)))
  }

  /** After all calls: every created or rewritten endpoint reads back with exactly its targets, the
      provider's TTL and its proxied flag; deleted keys read as absent. */
  lemma AppliedReadsBack(c: Cloud, cfg: Account, ch: Changes, index: RecordIndex, m: map<Key, Endpoint>)
    requires Applicable(c, cfg, ch, index)
    requires forall e :: e in ch.create || e in ch.update ==> e.targets != [] && Quotable(e)
    requires forall e :: e in ch.create ==> Sub(c, ZoneKey(e.Key())) == map[]
    requires ReadsCloud(After(c, cfg, ch, index, |Calls(cfg, ch, index)|), m)
    ensures forall e :: e in ch.create || e in ch.update ==> ReadsBack(cfg, e, m)
    ensures forall e :: e in ch.delete ==> e.Key() !in m
  {
    var j := |Calls(cfg, ch, index)|;
    forall e | e in ch.create || e in ch.update ensures ReadsBack(cfg, e, m) {
      WrittenHolds(c, cfg, ch, index, e);
      HeldReadsBack(After(c, cfg, ch, index, j), cfg, e, m);
    }
    forall e | e in ch.delete ensures e.Key() !in m {
      AtDelete(c, cfg, ch, index, j, e);
    }
  }

  lemma WrittenHolds(c: Cloud, cfg: Account, ch: Changes, index: RecordIndex, e: Endpoint)
    requires Applicable(c, cfg, ch, index)
    requires e in ch.update || (e in ch.create && Sub(c, ZoneKey(e.Key())) == map[])
    ensures Holds(cfg, e, Sub(After(c, cfg, ch, index, |Calls(cfg, ch, index)|), ZoneKey(e.Key())))
  {
    var j := |Calls(cfg, ch, index)|;
    if e in ch.update {
      AtUpdate(c, cfg, ch, index, j, e);
    } else {
      CompletePhases(cfg, ch, index);
      var n := AtFreeCreate(c, cfg, ch, index, j, e);
      FreshHolds(cfg, e, n);
    }
  }

  lemma HeldReadsBack(c: Cloud, cfg: Account, e: Endpoint, m: map<Key, Endpoint>)
    requires e.targets != [] && Quotable(e) && Holds(cfg, e, Sub(c, ZoneKey(e.Key()))) && ReadsCloud(c, m)
    ensures ReadsBack(cfg, e, m)
  {
    var sub := Sub(c, ZoneKey(e.Key()));
    var ids :| HoldsIn(cfg, e, sub, ids);
    assert ids[0] in sub;
    HoldsReads(cfg, e, sub, m[e.Key()]);
    if e.rtype != TXT { CfReadBackExact(cfg, e, sub, m[e.Key()]); }
  }
}
