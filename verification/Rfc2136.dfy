/** The provider that programs a zone by dynamic update and reads it by zone
    transfer (internal/provider/rfc2136.go). */
module Rfc2136 {
  import opened GoText
  import opened Endpoints
  import opened Planning
  import opened DnsZone

  const DEFAULT_TTL: nat := 300

  /** `uint32(e.TTL)`, with 300 for zero. */
  function WireTtl(ttl: int): nat {
    var t := ttl % 0x1_0000_0000;
    if t == 0 then DEFAULT_TTL else t
  }

  // ---- reading --------------------------------------------------------------

  /** `e` is one reading of an RRset: its data in some order, the TTL of the record that came first. */
  ghost predicate ReadsRRset(rs: RRset, e: Endpoint) {
    && e.labels == map[]
    && e.targets != [] && Distinct(e.targets)
    && (forall v :: v in e.targets <==> v in rs)
    && e.ttl == rs[e.targets[0]]
  }

  /** `m` is one reading of the zone. */
  ghost predicate ReadsZone(z: Zone, m: map<Key, Endpoint>) {
    && (forall k: Key :: k in m <==> At(z, ZoneKey(k)) != map[])
    && (forall k :: k in m ==> m[k].Key() == k && ReadsRRset(At(z, ZoneKey(k)), m[k]))
  }

  /** `toEndpoint`: A, AAAA, CNAME and TXT records become single-target endpoints. */
  function ToEndpoint(rr: RR): Option<Endpoint> {
    match rr.key.rtype
    case Known(t) => Some(Endpoint(rr.key.name, [rr.data], t, rr.ttl, map[]))
    case Other(_) => None
  }

  lemma ReadMore(rs: RRset, h: Endpoint, d: string, ttl: nat)
    requires ReadsRRset(rs, h) && d !in rs
    ensures ReadsRRset(rs[d := ttl], h.(targets := h.targets + [d]))
  {
    var h' := h.(targets := h.targets + [d]);
    assert forall v :: v in h'.targets <==> v in h.targets || v == d;
    assert h'.targets[0] == h.targets[0] && h.targets[0] in h.targets;
  }

  /** The reading `m` is right about key `l`. */
  ghost predicate ReadsAt(z: Zone, m: map<Key, Endpoint>, l: Key) {
    && (l in m <==> At(z, ZoneKey(l)) != map[])
    && (l in m ==> m[l].Key() == l && ReadsRRset(At(z, ZoneKey(l)), m[l]))
  }

  function Merged(m: map<Key, Endpoint>, e: Endpoint): map<Key, Endpoint> {
    if e.Key() in m then m[e.Key() := m[e.Key()].(targets := m[e.Key()].targets + e.targets)] else m[e.Key() := e]
  }

  lemma ReadFirst(rr: RR, e: Endpoint)
    requires ToEndpoint(rr) == Some(e)
    ensures ReadsRRset(map[rr.data := rr.ttl], e)
  {
  }

  lemma ReadHere(z: Zone, m: map<Key, Endpoint>, rr: RR, e: Endpoint)
    requires ReadsAt(z, m, e.Key()) && rr.data !in At(z, rr.key) && ToEndpoint(rr) == Some(e)
    ensures rr.key == ZoneKey(e.Key())
    ensures Merged(m, e)[e.Key()].Key() == e.Key()
    ensures ReadsRRset(At(z, rr.key)[rr.data := rr.ttl], Merged(m, e)[e.Key()])
  {
    if e.Key() in m {
      ReadMore(At(z, rr.key), m[e.Key()], rr.data, rr.ttl);
    } else {
      ReadFirst(rr, e);
    }
  }

  lemma ReadOneAt(z: Zone, m: map<Key, Endpoint>, rr: RR, e: Endpoint, l: Key)
    requires ReadsZone(z, m) && rr.data !in At(z, rr.key) && ToEndpoint(rr) == Some(e)
    ensures ReadsAt(z[rr.key := At(z, rr.key)[rr.data := rr.ttl]], Merged(m, e), l)
  {
    assert ReadsAt(z, m, l);
    if l == e.Key() { ReadHere(z, m, rr, e); }
  }

  lemma ReadOne(z: Zone, m: map<Key, Endpoint>, rr: RR, e: Endpoint)
    requires ReadsZone(z, m) && rr.data !in At(z, rr.key) && ToEndpoint(rr) == Some(e)
    ensures ReadsZone(z[rr.key := At(z, rr.key)[rr.data := rr.ttl]], Merged(m, e))
  {
    var z', m' := z[rr.key := At(z, rr.key)[rr.data := rr.ttl]], Merged(m, e);
    forall l: Key ensures ReadsAt(z', m', l) {
      ReadOneAt(z, m, rr, e, l);
    }
    ReadsEverywhere(z', m');
  }

  lemma ReadsEverywhere(z: Zone, m: map<Key, Endpoint>)
    requires forall l :: ReadsAt(z, m, l)
    ensures ReadsZone(z, m)
  {
    forall l: Key ensures l in m <==> At(z, ZoneKey(l)) != map[] {
      assert ReadsAt(z, m, l);
    }
    forall l | l in m ensures m[l].Key() == l && ReadsRRset(At(z, ZoneKey(l)), m[l]) {
      assert ReadsAt(z, m, l);
    }
  }

  /** `got` holds exactly the records received. */
  ghost predicate Received(got: Zone, rrs: seq<RR>) {
    forall rr :: rr in rrs <==> rr.data in At(got, rr.key) && At(got, rr.key)[rr.data] == rr.ttl
  }

  lemma ReceiveOne(z: Zone, rrs: seq<RR>, got: Zone, i: nat)
    requires Transfers(z, rrs) && i < |rrs| && Received(got, rrs[..i])
    ensures rrs[i].data !in At(got, rrs[i].key)
    ensures Received(got[rrs[i].key := At(got, rrs[i].key)[rrs[i].data := rrs[i].ttl]], rrs[..i + 1])
  {
    var rr, before := rrs[i], rrs[..i];
    assert forall other :: other in before ==> other.key != rr.key || other.data != rr.data;
    NotReceived(got, before, rr);
    assert rrs[..i + 1] == before + [rr];
    ReceivedMore(got, before, rr);
  }

  lemma NotReceived(got: Zone, rrs: seq<RR>, rr: RR)
    requires Received(got, rrs) && forall other :: other in rrs ==> other.key != rr.key || other.data != rr.data
    ensures rr.data !in At(got, rr.key)
  {
    assert forall d :: d in At(got, rr.key) ==> RR(rr.key, d, At(got, rr.key)[d]) in rrs;
  }

  lemma ReceivedMore(got: Zone, rrs: seq<RR>, rr: RR)
    requires Received(got, rrs) && rr.data !in At(got, rr.key)
    ensures Received(got[rr.key := At(got, rr.key)[rr.data := rr.ttl]], rrs + [rr])
  {
    var got' := got[rr.key := At(got, rr.key)[rr.data := rr.ttl]];
    forall o: RR ensures o in rrs + [rr] <==> o.data in At(got', o.key) && At(got', o.key)[o.data] == o.ttl {
      assert o in rrs + [rr] <==> o in rrs || o == rr;
    }
  }

  /** `Records`: one endpoint per name and type, its targets merged in transfer order. */
  method Records(server: DnsServer) returns (ok: bool, out: seq<Endpoint>)
    modifies server`failedReads
    ensures ok ==> DistinctKeys(out) && ReadsZone(server.zone, IndexOf(out))
    ensures ok <==> server.failedReads == old(server.failedReads)
  {
    var rrs;
    ok, rrs := server.Axfr();
    if !ok {
      return false, [];
    }
    out := Merge(server.zone, rrs);
  }

  /** The loop over the records of a transfer. */
  method Merge(ghost z: Zone, rrs: seq<RR>) returns (out: seq<Endpoint>)
    requires Transfers(z, rrs)
    ensures DistinctKeys(out) && ReadsZone(z, IndexOf(out))
  {
    var byKey: map<Key, Endpoint> := map[];
    var order: seq<Key> := [];
    ghost var got: Zone := map[];
    for i := 0 to |rrs|
      invariant Received(got, rrs[..i])
      invariant ReadsZone(got, byKey)
      invariant InOrder(byKey, order)
    {
      ReceiveOne(z, rrs, got, i);
      var e := ToEndpoint(rrs[i]);
      ghost var got' := got[rrs[i].key := At(got, rrs[i].key)[rrs[i].data := rrs[i].ttl]];
      if e.Some? {
        ReadOne(got, byKey, rrs[i], e.value);
        if e.value.Key() !in byKey {
          InOrderExtend(byKey, order, e.value.Key(), e.value);
          order := order + [e.value.Key()];
        }
        byKey := Merged(byKey, e.value);
      } else {
        assert forall k: Key :: At(got', ZoneKey(k)) == At(got, ZoneKey(k));
      }
      got := got';
    }
    assert rrs[..|rrs|] == rrs;
    SameZone(z, got, rrs);
    out := Collect(byKey, order);
  }

  lemma SameZone(z: Zone, got: Zone, rrs: seq<RR>)
    requires Transfers(z, rrs) && Received(got, rrs)
    ensures forall k :: At(got, k) == At(z, k)
  {
    forall k ensures At(got, k) == At(z, k) {
      forall d ensures (d in At(got, k) <==> d in At(z, k)) && (d in At(got, k) ==> At(got, k)[d] == At(z, k)[d]) {
        if d in At(got, k) { assert RR(k, d, At(got, k)[d]) in rrs; }
        if d in At(z, k) { assert RR(k, d, At(z, k)[d]) in rrs; }
      }
    }
  }

  // ---- writing --------------------------------------------------------------

  /** `m.Insert(rrs(e))`. */
  function InsertMsg(e: Endpoint, n: nat := |e.targets|): seq<UpdateRR>
    requires n <= |e.targets|
  {
    if n == 0 then [] else InsertMsg(e, n - 1) + [Insert(ZoneKey(e.Key()), e.targets[n - 1], WireTtl(e.ttl))]
  }

  /** `m.RemoveRRset(rrs(e))`: one deletion per record, so none for an endpoint without targets. */
  function RemoveMsg(e: Endpoint, n: nat := |e.targets|): seq<UpdateRR>
    requires n <= |e.targets|
  {
    if n == 0 then [] else RemoveMsg(e, n - 1) + [DeleteRRset(ZoneKey(e.Key()))]
  }

  function CreateMsgs(es: seq<Endpoint>): seq<UpdateRR> {
    if es == [] then [] else CreateMsgs(es[..|es| - 1]) + InsertMsg(es[|es| - 1])
  }

  function UpdateMsgs(es: seq<Endpoint>): seq<UpdateRR> {
    if es == [] then [] else UpdateMsgs(es[..|es| - 1]) + (RemoveMsg(es[|es| - 1]) + InsertMsg(es[|es| - 1]))
  }

  function DeleteMsgs(es: seq<Endpoint>): seq<UpdateRR> {
    if es == [] then [] else DeleteMsgs(es[..|es| - 1]) + RemoveMsg(es[|es| - 1])
  }

  function Message(ch: Changes): seq<UpdateRR> {
    CreateMsgs(ch.create) + UpdateMsgs(ch.update) + DeleteMsgs(ch.delete)
  }

  method AppendCreates(ns0: seq<UpdateRR>, es: seq<Endpoint>) returns (ns: seq<UpdateRR>)
    ensures ns == ns0 + CreateMsgs(es)
  {
    ns := ns0;
    for i := 0 to |es|
      invariant ns == ns0 + CreateMsgs(es[..i])
    {
      assert es[..i + 1][..i] == es[..i];
      ns := ns + InsertMsg(es[i]);
    }
    assert es[..|es|] == es;
  }

  method AppendUpdates(ns0: seq<UpdateRR>, es: seq<Endpoint>) returns (ns: seq<UpdateRR>)
    ensures ns == ns0 + UpdateMsgs(es)
  {
    ns := ns0;
    for i := 0 to |es|
      invariant ns == ns0 + UpdateMsgs(es[..i])
    {
      assert es[..i + 1][..i] == es[..i];
      ns := ns + RemoveMsg(es[i]);
      ns := ns + InsertMsg(es[i]);
    }
    assert es[..|es|] == es;
  }

  method AppendDeletes(ns0: seq<UpdateRR>, es: seq<Endpoint>) returns (ns: seq<UpdateRR>)
    ensures ns == ns0 + DeleteMsgs(es)
  {
    ns := ns0;
    for i := 0 to |es|
      invariant ns == ns0 + DeleteMsgs(es[..i])
    {
      assert es[..i + 1][..i] == es[..i];
      ns := ns + RemoveMsg(es[i]);
    }
    assert es[..|es|] == es;
  }

  /** `ApplyChanges`: one UPDATE message with all creates, updates and deletes, in that order.
      A failure leaves open whether the server applied it. */
  method ApplyChanges(server: DnsServer, ch: Changes) returns (ok: bool)
    modifies server`zone, server`failedWrites
    ensures server.zone == Process(old(server.zone), Message(ch)) || (!ok && server.zone == old(server.zone))
    ensures Message(ch) == [] ==> ok
    ensures ok <==> server.failedWrites == old(server.failedWrites)
  {
    var ns := AppendCreates([], ch.create);
    ns := AppendUpdates(ns, ch.update);
    ns := AppendDeletes(ns, ch.delete);
    assert ns == Message(ch);
    if |ns| == 0 {
      return true;
    }
    ok := server.Exchange(ns);
  }

  // ---- what an update message does, RRset by RRset ---------------------------

  /** The TTL a written record gets. */
  function ZoneTtl(ttl: int): nat {
    ServedTtl(WireTtl(ttl))
  }

  /** The RRset an unopposed insertion of `e` leaves. */
  function Inserted(rs: RRset, e: Endpoint, n: nat := |e.targets|): RRset
    requires n <= |e.targets|
  {
    if n == 0 then rs
    else if e.rtype == CNAME then map[e.targets[n - 1] := ZoneTtl(e.ttl)]
    else Inserted(rs, e, n - 1)[e.targets[n - 1] := ZoneTtl(e.ttl)]
  }

  ghost predicate SameElsewhere(z: Zone, z': Zone, k: RRKey) {
    forall l :: l != k ==> At(z', l) == At(z, l)
  }

  lemma ClashFrame(z: Zone, z': Zone, k: RRKey)
    requires forall l :: Opposes(l, k) ==> At(z', l) == At(z, l)
    ensures Clash(z', k) == Clash(z, k)
  {
    if Clash(z, k) {
      var l :| l in z && Opposes(l, k) && At(z, l) != map[];
      assert l in z';
    }
    if Clash(z', k) {
      var l :| l in z' && Opposes(l, k) && At(z', l) != map[];
      assert l in z;
    }
  }

  lemma ProcessLast(z: Zone, msg: seq<UpdateRR>, u: UpdateRR)
    ensures Process(z, msg + [u]) == Step(Process(z, msg), u)
  {
    assert (msg + [u])[..|msg|] == msg;
  }

  lemma StepInsert(z: Zone, k: RRKey, data: string, ttl: nat)
    ensures SameElsewhere(z, Step(z, Insert(k, data, ttl)), k)
    ensures At(Step(z, Insert(k, data, ttl)), k) ==
      if Clash(z, k) then At(z, k)
      else if k.rtype == Known(CNAME) then map[data := ServedTtl(ttl)]
      else At(z, k)[data := ServedTtl(ttl)]
  {
  }

  lemma {:induction false} InsertEffect(z: Zone, e: Endpoint, n: nat)
    requires n <= |e.targets|
    ensures var k := ZoneKey(e.Key()); var z' := Process(z, InsertMsg(e, n));
      && SameElsewhere(z, z', k)
      && At(z', k) == if Clash(z, k) then At(z, k) else Inserted(At(z, k), e, n)
  {
    if n > 0 {
      var k, msg := ZoneKey(e.Key()), InsertMsg(e, n - 1);
      InsertEffect(z, e, n - 1);
      ProcessLast(z, msg, Insert(k, e.targets[n - 1], WireTtl(e.ttl)));
      StepInsert(Process(z, msg), k, e.targets[n - 1], WireTtl(e.ttl));
      ClashFrame(z, Process(z, msg), k);
    }
  }

  lemma StepDelete(z: Zone, k: RRKey)
    ensures SameElsewhere(z, Step(z, DeleteRRset(k)), k) && At(Step(z, DeleteRRset(k)), k) == map[]
  {
  }

  lemma {:induction false} RemoveEffect(z: Zone, e: Endpoint, n: nat)
    requires n <= |e.targets|
    ensures var k := ZoneKey(e.Key()); var z' := Process(z, RemoveMsg(e, n));
      SameElsewhere(z, z', k) && At(z', k) == if n == 0 then At(z, k) else map[]
  {
    if n > 0 {
      RemoveEffect(z, e, n - 1);
      ProcessLast(z, RemoveMsg(e, n - 1), DeleteRRset(ZoneKey(e.Key())));
      StepDelete(Process(z, RemoveMsg(e, n - 1)), ZoneKey(e.Key()));
    }
  }

  lemma ReplaceEffect(z: Zone, e: Endpoint)
    requires e.targets != []
    ensures var k := ZoneKey(e.Key()); var z' := Process(z, RemoveMsg(e) + InsertMsg(e));
      SameElsewhere(z, z', k) && At(z', k) == if Clash(z, k) then map[] else Inserted(map[], e)
  {
    var z1 := Process(z, RemoveMsg(e));
    ProcessAppend(z, RemoveMsg(e), InsertMsg(e));
    RemoveEffect(z, e, |e.targets|);
    InsertEffect(z1, e, |e.targets|);
    ClashFrame(z, z1, ZoneKey(e.Key()));
  }

  ghost predicate Mentions(es: seq<Endpoint>, k: RRKey) {
    exists e :: e in es && ZoneKey(e.Key()) == k
  }

  lemma MentionsLast(es: seq<Endpoint>)
    requires es != []
    ensures forall k :: Mentions(es, k) <==> Mentions(es[..|es| - 1], k) || k == ZoneKey(es[|es| - 1].Key())
    ensures DistinctKeys(es) ==> !Mentions(es[..|es| - 1], ZoneKey(es[|es| - 1].Key()))
    ensures forall e :: e in es <==> e in es[..|es| - 1] || e == es[|es| - 1]
  {
    assert es == es[..|es| - 1] + [es[|es| - 1]];
  }

  /** No two of the endpoints keep each other out of the zone. */
  ghost predicate NoOpposition(es: seq<Endpoint>, fs: seq<Endpoint>) {
    forall k, l :: Mentions(es, k) && Mentions(fs, l) ==> !Opposes(k, l)
  }

  ghost predicate SameUnless(z: Zone, z': Zone, es: seq<Endpoint>) {
    forall k :: !Mentions(es, k) ==> At(z', k) == At(z, k)
  }

  lemma ClashKept(z: Zone, z': Zone, es: seq<Endpoint>, k: RRKey)
    requires SameUnless(z, z', es)
    requires forall l :: Mentions(es, l) ==> !Opposes(l, k)
    ensures Clash(z', k) == Clash(z, k)
  {
    ClashFrame(z, z', k);
  }

  /** The RRset at `e`'s key once `e` has been created, or updated, in a message applied to `z`. */
  ghost function CreatedRRset(z: Zone, e: Endpoint): RRset {
    var k := ZoneKey(e.Key());
    if Clash(z, k) then At(z, k) else Inserted(At(z, k), e)
  }

  ghost function UpdatedRRset(z: Zone, e: Endpoint): RRset {
    if Clash(z, ZoneKey(e.Key())) then map[] else Inserted(map[], e)
  }

  ghost predicate AllCreated(z: Zone, z': Zone, es: seq<Endpoint>) {
    forall e :: e in es ==> At(z', ZoneKey(e.Key())) == CreatedRRset(z, e)
  }

  ghost predicate AllUpdated(z: Zone, z': Zone, es: seq<Endpoint>) {
    forall e :: e in es ==> At(z', ZoneKey(e.Key())) == UpdatedRRset(z, e)
  }

  ghost predicate AllDeleted(z': Zone, es: seq<Endpoint>) {
    forall e :: e in es ==> At(z', ZoneKey(e.Key())) == map[]
  }

  lemma {:induction false} CreatesEffect(z: Zone, es: seq<Endpoint>)
    requires DistinctKeys(es) && NoOpposition(es, es)
    ensures var z' := Process(z, CreateMsgs(es)); SameUnless(z, z', es) && AllCreated(z, z', es)
  {
    if es != [] {
      var init, e := es[..|es| - 1], es[|es| - 1];
      MentionsLast(es);
      CreatesEffect(z, init);
      var z1 := Process(z, CreateMsgs(init));
      ProcessAppend(z, CreateMsgs(init), InsertMsg(e));
      InsertEffect(z1, e, |e.targets|);
      ClashKept(z, z1, init, ZoneKey(e.Key()));
    }
  }

  lemma {:induction false} UpdatesEffect(z: Zone, es: seq<Endpoint>)
    requires DistinctKeys(es) && NoOpposition(es, es)
    requires forall e :: e in es ==> e.targets != []
    ensures var z' := Process(z, UpdateMsgs(es)); SameUnless(z, z', es) && AllUpdated(z, z', es)
  {
    if es != [] {
      var init, e := es[..|es| - 1], es[|es| - 1];
      MentionsLast(es);
      UpdatesEffect(z, init);
      var z1 := Process(z, UpdateMsgs(init));
      ProcessAppend(z, UpdateMsgs(init), RemoveMsg(e) + InsertMsg(e));
      ReplaceEffect(z1, e);
      ClashKept(z, z1, init, ZoneKey(e.Key()));
    }
  }

  lemma {:induction false} DeletesEffect(z: Zone, es: seq<Endpoint>)
    requires forall e :: e in es ==> e.targets != []
    ensures var z' := Process(z, DeleteMsgs(es)); SameUnless(z, z', es) && AllDeleted(z', es)
  {
    if es != [] {
      var init, e := es[..|es| - 1], es[|es| - 1];
      MentionsLast(es);
      DeletesEffect(z, init);
      ProcessAppend(z, DeleteMsgs(init), RemoveMsg(e));
      RemoveEffect(Process(z, DeleteMsgs(init)), e, |e.targets|);
    }
  }

  /** No endpoint of the change set keeps another from being written. */
  ghost predicate Writable(ch: Changes) {
    && KeyDisjoint(ch)
    && NoOpposition(ch.create, ch.create) && NoOpposition(ch.update, ch.update)
    && NoOpposition(ch.create, ch.update)
    && (forall e :: e in ch.update ==> e.targets != [])
    && (forall e :: e in ch.delete ==> e.targets != [])
  }

  lemma DisjointMentions(es: seq<Endpoint>, fs: seq<Endpoint>)
    requires Disjoint(es, fs)
    ensures forall k :: Mentions(es, k) ==> !Mentions(fs, k)
  {
  }

  /** The zone after an accepted update, RRset by RRset. */
  lemma ApplyEffect(z: Zone, ch: Changes)
    requires Writable(ch)
    ensures var z' := Process(z, Message(ch));
      && (forall k ::
           !Mentions(ch.create, k) && !Mentions(ch.update, k) && !Mentions(ch.delete, k) ==> At(z', k) == At(z, k))
      && AllCreated(z, z', ch.create) && AllUpdated(z, z', ch.update) && AllDeleted(z', ch.delete)
  {
    var c, u, d := CreateMsgs(ch.create), UpdateMsgs(ch.update), DeleteMsgs(ch.delete);
    ProcessAppend(z, c + u, d);
    ProcessAppend(z, c, u);
    var z1 := Process(z, c);
    var z2 := Process(z1, u);
    CreatesEffect(z, ch.create);
    UpdatesEffect(z1, ch.update);
    DeletesEffect(z2, ch.delete);
    DisjointMentions(ch.create, ch.update);
    DisjointMentions(ch.create, ch.delete);
    DisjointMentions(ch.update, ch.delete);
    forall e | e in ch.update ensures Clash(z1, ZoneKey(e.Key())) == Clash(z, ZoneKey(e.Key())) {
      ClashKept(z, z1, ch.create, ZoneKey(e.Key()));
    }
    forall e | e in ch.create ensures Mentions(ch.create, ZoneKey(e.Key())) {}
    forall e | e in ch.update ensures Mentions(ch.update, ZoneKey(e.Key())) {}
    forall e | e in ch.delete ensures Mentions(ch.delete, ZoneKey(e.Key())) {}
  }

  // ---- what any update message leaves alone -------------------------------------

  lemma {:induction false} ProcessFrame(z: Zone, msg: seq<UpdateRR>, k: RRKey)
    requires forall u :: u in msg ==> u.key != k
    ensures At(Process(z, msg), k) == At(z, k)
  {
    if msg != [] {
      assert msg[|msg| - 1] in msg;
      ProcessFrame(z, msg[..|msg| - 1], k);
    }
  }

  /** Data in an RRset after a message was there before or was inserted by it. */
  lemma {:induction false} ProcessData(z: Zone, msg: seq<UpdateRR>, k: RRKey, d: string)
    requires d in At(Process(z, msg), k)
    ensures d in At(z, k) || exists u :: u in msg && u.Insert? && u.key == k && u.data == d
  {
    if msg != [] {
      var init, last := msg[..|msg| - 1], msg[|msg| - 1];
      assert last in msg;
      if d in At(Process(z, init), k) {
        ProcessData(z, init, k, d);
        if u :| u in init && u.Insert? && u.key == k && u.data == d {
          assert u in msg;
        }
      }
    }
  }

  /** `u` writes or clears the RRset of `e`. */
  ghost predicate Serves(u: UpdateRR, e: Endpoint) {
    u.key == ZoneKey(e.Key()) && (u.Insert? ==> u.data in e.targets && u.ttl == WireTtl(e.ttl))
  }

  lemma {:induction false} EndpointMsgs(e: Endpoint, n: nat)
    requires n <= |e.targets|
    ensures forall u :: u in InsertMsg(e, n) || u in RemoveMsg(e, n) ==> Serves(u, e)
  {
    if n > 0 {
      EndpointMsgs(e, n - 1);
    }
  }

  lemma {:induction false} ListMsgs(es: seq<Endpoint>)
    ensures forall u :: u in CreateMsgs(es) || u in UpdateMsgs(es) || u in DeleteMsgs(es) ==> exists e ::
      e in es && Serves(u, e)
  {
    if es != [] {
      var init, last := es[..|es| - 1], es[|es| - 1];
      ListMsgs(init);
      EndpointMsgs(last, |last.targets|);
      forall u | u in CreateMsgs(es) || u in UpdateMsgs(es) || u in DeleteMsgs(es)
        ensures exists e :: e in es && Serves(u, e)
      {
        assert u in CreateMsgs(es) ==> u in CreateMsgs(init) || u in InsertMsg(last);
        assert u in UpdateMsgs(es) ==> u in UpdateMsgs(init) || u in RemoveMsg(last) + InsertMsg(last);
        assert u in DeleteMsgs(es) ==> u in DeleteMsgs(init) || u in RemoveMsg(last);
        if u in InsertMsg(last) || u in RemoveMsg(last) {
          assert last in es && Serves(u, last);
        } else {
          var e :| e in init && Serves(u, e);
          assert e in es;
        }
      }
    }
  }

  ghost predicate InChanges(ch: Changes, e: Endpoint) {
    e in ch.create || e in ch.update || e in ch.delete
  }

  /** Every part of an update message serves an endpoint of the change set. */
  lemma MessageServes(ch: Changes, u: UpdateRR) returns (e: Endpoint)
    requires u in Message(ch)
    ensures InChanges(ch, e) && Serves(u, e)
  {
    ListMsgs(ch.create);
    ListMsgs(ch.update);
    ListMsgs(ch.delete);
    e :| InChanges(ch, e) && Serves(u, e);
  }

  /** Every insertion is for a created or updated endpoint. */
  lemma InsertServes(ch: Changes, u: UpdateRR) returns (e: Endpoint)
    requires u in Message(ch) && u.Insert?
    ensures (e in ch.create || e in ch.update) && Serves(u, e)
  {
    NoInserts(ch.delete);
    if u in CreateMsgs(ch.create) {
      ListMsgs(ch.create);
      e :| e in ch.create && Serves(u, e);
    } else {
      ListMsgs(ch.update);
      e :| e in ch.update && Serves(u, e);
    }
  }

  lemma {:induction false} NoInserts(es: seq<Endpoint>)
    ensures forall u :: u in DeleteMsgs(es) ==> u.DeleteRRset?
  {
    if es != [] {
      var init, last := es[..|es| - 1], es[|es| - 1];
      NoInserts(init);
      RemovesOnly(last, |last.targets|);
      assert forall u :: u in DeleteMsgs(es) ==> u in DeleteMsgs(init) || u in RemoveMsg(last);
    }
  }

  lemma {:induction false} RemovesOnly(e: Endpoint, n: nat)
    requires n <= |e.targets|
    ensures forall u :: u in RemoveMsg(e, n) ==> u.DeleteRRset?
  {
    if n > 0 { RemovesOnly(e, n - 1); }
  }

  /** An RRset no endpoint of the change set names is left as it was, whatever the change set. */
  lemma MessageFrame(z: Zone, ch: Changes, k: RRKey)
    requires forall e :: InChanges(ch, e) ==> ZoneKey(e.Key()) != k
    ensures At(Process(z, Message(ch)), k) == At(z, k)
  {
    forall u | u in Message(ch) ensures u.key != k {
      var e := MessageServes(ch, u);
    }
    ProcessFrame(z, Message(ch), k);
  }

  /** Data that no endpoint of the change set brings does not appear. */
  lemma MessageData(z: Zone, ch: Changes, k: RRKey, d: string)
    requires d !in At(z, k)
    requires forall e :: InChanges(ch, e) && ZoneKey(e.Key()) == k ==> d !in e.targets
    ensures d !in At(Process(z, Message(ch)), k)
  {
    if d in At(Process(z, Message(ch)), k) {
      ProcessData(z, Message(ch), k, d);
      var u :| u in Message(ch) && u.Insert? && u.key == k && u.data == d;
      var e := MessageServes(ch, u);
    }
  }
}
