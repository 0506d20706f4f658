/** A DNS zone that takes dynamic updates, as section 3.4.2 of RFC 2136 has an
    authoritative server process them. Names are kept without their final dot. */
module DnsZone {
  import opened GoText
  import opened Endpoints

  datatype RRType = Known(rtype: RecordType) | Other(code: string)

  datatype RRKey = RRKey(name: string, rtype: RRType)

  /** The records of one RRset: data to TTL. An absent RRset and an empty one are the same thing. */
  type RRset = map<string, nat>

  type Zone = map<RRKey, RRset>

  function At(z: Zone, k: RRKey): RRset {
    if k in z then z[k] else map[]
  }

  function ZoneKey(k: Key): RRKey {
    RRKey(k.name, Known(k.rtype))
  }

  /** One is a CNAME and the other is not, at the same name. */
  predicate Opposes(k: RRKey, l: RRKey) {
    k.name == l.name && (k.rtype == Known(CNAME)) != (l.rtype == Known(CNAME))
  }

  /** The zone holds records that keep an insertion at `k` out. */
  predicate Clash(z: Zone, k: RRKey) {
    exists l :: l in z && Opposes(l, k) && At(z, l) != map[]
  }

  datatype UpdateRR = Insert(key: RRKey, data: string, ttl: nat) | DeleteRRset(key: RRKey)

  /** Section 8 of RFC 2181: a TTL with the top bit set counts as zero. */
  function ServedTtl(ttl: nat): nat {
    if ttl >= 0x8000_0000 then 0 else ttl
  }

  /** Section 3.4.2.2 (add to an RRset) and 3.4.2.3 (delete an RRset): a CNAME is
      ignored where other data exists and the other way round, a CNAME replaces the
      CNAME before it, equal data takes the new TTL. */
  function Step(z: Zone, u: UpdateRR): Zone {
    match u
    case Insert(k, data, ttl) =>
      if Clash(z, k) then z
      else if k.rtype == Known(CNAME) then z[k := map[data := ServedTtl(ttl)]]
      else z[k := At(z, k)[data := ServedTtl(ttl)]]
    case DeleteRRset(k) => z - {k}
  }

  /** Section 3.4.2.2 in plain words: a CNAME takes the place of the CNAME before it, unless the name has data of
      another type; other data is added, unless the name has a CNAME. So addresses of both families coexist. */
  lemma InsertSpelled(z: Zone, k: RRKey, data: string, ttl: nat)
    requires ttl < 0x8000_0000
    ensures k.rtype == Known(CNAME) ==>
      At(Step(z, Insert(k, data, ttl)), k) ==
      if exists t :: t != Known(CNAME) && At(z, RRKey(k.name, t)) != map[] then At(z, k) else map[data := ttl]
    ensures k.rtype != Known(CNAME) ==>
      At(Step(z, Insert(k, data, ttl)), k) ==
      if At(z, RRKey(k.name, Known(CNAME))) != map[] then At(z, k) else At(z, k)[data := ttl]
  {
    if k.rtype == Known(CNAME) {
      if t :| t != Known(CNAME) && At(z, RRKey(k.name, t)) != map[] {
        assert RRKey(k.name, t) in z && Opposes(RRKey(k.name, t), k);
      } else {
        forall l | l in z && Opposes(l, k) ensures At(z, l) == map[] {
          assert l == RRKey(k.name, l.rtype);
        }
      }
    } else {
      var c := RRKey(k.name, Known(CNAME));
      if At(z, c) != map[] {
        assert c in z && Opposes(c, k);
      } else {
        forall l | l in z && Opposes(l, k) ensures At(z, l) == map[] {
          assert l == c;
        }
      }
    }
  }

  function Process(z: Zone, msg: seq<UpdateRR>): Zone {
    if msg == [] then z else Step(Process(z, msg[..|msg| - 1]), msg[|msg| - 1])
  }

  lemma {:induction false} ProcessAppend(z: Zone, a: seq<UpdateRR>, b: seq<UpdateRR>)
    ensures Process(z, a + b) == Process(Process(z, a), b)
  {
    if b == [] {
      assert a + b == a;
    } else {
      ProcessAppend(z, a, b[..|b| - 1]);
      assert (a + b)[..|a + b| - 1] == a + b[..|b| - 1];
    }
  }

  datatype RR = RR(key: RRKey, data: string, ttl: nat)

  /** `rrs` lists every record of the zone once, in some order: a zone transfer. */
  ghost predicate Transfers(z: Zone, rrs: seq<RR>) {
    && (forall i, j :: 0 <= i < j < |rrs| ==> rrs[i].key != rrs[j].key || rrs[i].data != rrs[j].data)
    && (forall rr :: rr in rrs <==> rr.data in At(z, rr.key) && At(z, rr.key)[rr.data] == rr.ttl)
  }

  /** The authoritative server: its zone, zone transfers, and UPDATE messages. It counts the
      transfers and the messages that were reported to have failed. */
  class DnsServer {
    var zone: Zone
    ghost var failedReads: nat
    ghost var failedWrites: nat

    constructor (z: Zone)
      ensures zone == z && failedReads == 0 && failedWrites == 0
    {
      zone, failedReads, failedWrites := z, 0, 0;
    }

    /** A transfer can break off at any point; then nothing of it is used. */
    method Axfr() returns (ok: bool, rrs: seq<RR>)
      modifies this`failedReads
      ensures ok ==> Transfers(zone, rrs)
      ensures failedReads == old(failedReads) + if ok then 0 else 1
    {
      ok := *;
      if !ok {
        failedReads := failedReads + 1;
        return false, [];
      }
      rrs := WholeTransfer();
    }

    method WholeTransfer() returns (rrs: seq<RR>)
      ensures Transfers(zone, rrs)
    {
      rrs := [];
      var keys := zone.Keys;
      ghost var done: Zone := map[];
      while keys != {}
        invariant keys <= zone.Keys
        invariant done == map k | k in zone && k !in keys :: zone[k]
        invariant Transfers(done, rrs)
        decreases |keys|
      {
        var k :| k in keys;
        assert At(done, k) == map[];
        rrs := TransferRRset(done, rrs, k, zone[k]);
        keys := keys - {k};
        done := done[k := zone[k]];
      }
      assert done == zone;
    }

    /** The server applies the whole message or, when it rejects it or never gets it, none of it.
        When the answer is lost the caller sees a failure although the message was applied. */
    method Exchange(msg: seq<UpdateRR>) returns (ok: bool)
      modifies this`zone, this`failedWrites
      ensures zone == Process(old(zone), msg) || (!ok && zone == old(zone))
      ensures failedWrites == old(failedWrites) + if ok then 0 else 1
    {
      var accepted: bool, answered: bool := *, *;
      ok := accepted && answered;
      if !ok {
        failedWrites := failedWrites + 1;
      }
      if accepted {
        var z := zone;
        for i := 0 to |msg|
          invariant z == Process(zone, msg[..i])
        {
          assert msg[..i + 1][..i] == msg[..i];
          z := Step(z, msg[i]);
        }
        assert msg[..|msg|] == msg;
        zone := z;
      }
    }
  }

  method TransferRRset(ghost done: Zone, sent: seq<RR>, k: RRKey, rs: RRset) returns (rrs: seq<RR>)
    requires Transfers(done, sent) && At(done, k) == map[]
    ensures Transfers(done[k := rs], rrs)
  {
    rrs := sent;
    var todo := rs.Keys;
    ghost var part: RRset := map[];
    TransferEmpty(done, rrs, k);
    while todo != {}
      invariant todo <= rs.Keys
      invariant part == map d | d in rs && d !in todo :: rs[d]
      invariant Transfers(done[k := part], rrs)
      decreases |todo|
    {
      var d :| d in todo;
      todo := todo - {d};
      TransferOne(done[k := part], rrs, RR(k, d, rs[d]));
      rrs := rrs + [RR(k, d, rs[d])];
      assert done[k := part][k := part[d := rs[d]]] == done[k := part[d := rs[d]]];
      part := part[d := rs[d]];
    }
    assert part == rs;
  }

  lemma TransferEmpty(z: Zone, rrs: seq<RR>, k: RRKey)
    requires Transfers(z, rrs) && At(z, k) == map[]
    ensures Transfers(z[k := map[]], rrs)
  {
    forall rr: RR ensures At(z[k := map[]], rr.key) == At(z, rr.key) {}
  }

  lemma TransferOne(z: Zone, rrs: seq<RR>, rr: RR)
    requires Transfers(z, rrs) && rr.data !in At(z, rr.key)
    ensures Transfers(z[rr.key := At(z, rr.key)[rr.data := rr.ttl]], rrs + [rr])
  {
    forall i | 0 <= i < |rrs| ensures rrs[i].key != rr.key || rrs[i].data != rr.data {
      assert rrs[i] in rrs;
    }
  }
}
