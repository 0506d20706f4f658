/** What a record written to a zone looks like: traced back to the desired record or the marker it was written
    for, with its TTL spelled out. */
module ZoneWritten {
  import opened GoText
  import opened Endpoints
  import opened Planning
  import opened Registry
  import opened DnsZone
  import opened Rfc2136
  import opened Convergence
  import opened Refinement

  /** Data of an RRset that was there before, with that TTL. */
  predicate Kept(z: Zone, z': Zone, k: RRKey, d: string) {
    d in At(z, k) && d in At(z', k) && At(z', k)[d] == At(z, k)[d]
  }

  /** Data in an RRset was there before, as it is, or inserted by the message, with the TTL it is served with. */
  lemma {:induction false} DataOrigin(z: Zone, msg: seq<UpdateRR>, k: RRKey, d: string) returns (u: UpdateRR)
    requires d in At(Process(z, msg), k) && !Kept(z, Process(z, msg), k, d)
    ensures u in msg && u.Insert? && u.key == k && u.data == d && ServedTtl(u.ttl) == At(Process(z, msg), k)[d]
  {
    var init, last := msg[..|msg| - 1], msg[|msg| - 1];
    if Kept(Process(z, init), Process(z, msg), k, d) {
      u := DataOrigin(z, init, k, d);
    } else {
      u := last;
    }
  }

  /** The TTL a record asked for with `ttl` seconds is served with: 32 bits of it, five minutes for none, and none
      when the top bit is set. */
  function Seconds(ttl: int): nat {
    var w := ttl % 4294967296;
    if w == 0 then 300 else if w < 2147483648 then w else 0
  }

  predicate DesiredData(e: Endpoint, k: RRKey, d: string, ttl: nat) {
    e.rtype != TXT && k == RRKey(e.name, Known(e.rtype)) && d in e.targets && ttl == Seconds(e.ttl)
  }

  predicate MarkerData(r: Owner, key: Key, k: RRKey, d: string, ttl: nat) {
    k == RRKey(TxtName(r, key), Known(TXT)) && d == "heritage=munpae,munpae/owner=" + r.id && ttl == 300
  }

  ghost predicate WrittenAt(s: Scope, desired: map<Key, Endpoint>, key: Key, k: RRKey, d: string, ttl: nat) {
    key in desired && (DesiredData(desired[key], k, d, ttl) || MarkerData(s.owner, key, k, d, ttl))
  }

  /** What a run creates or updates is a desired endpoint or the marker of one. */
  lemma PlannedFor(s: Scope, desired: map<Key, Endpoint>, policy: string, kept: set<Key>, z: Zone, run: ZoneRun,
                   e: Endpoint) returns (k: Key)
    requires Keyed(desired) && (forall k :: k in desired ==> k.rtype != TXT) && ReadsZone(z, run.first)
    requires IsPlanKeeping(desired, Current(s, run.first), policy, kept, run.changes)
    requires var out := Decorated(s.owner, run.changes, ExistingIn(s.owner, run.second));
      e in out.create || e in out.update
    ensures k in desired && desired[k].Key() == k && (e == desired[k] || e == Marker(s.owner, desired[k]))
  {
    var ch, existing := run.changes, ExistingIn(s.owner, run.second);
    PlanIsDrawn(s, desired, z, run.first, policy, kept, ch);
    MarkersOf(s.owner, ch.create, existing, false);
    if e in ch.create || e in ch.update {
      k := e.Key();
    } else {
      var f :| f in ch.create && e == Marker(s.owner, f) && (TxtName(s.owner, f.Key()) in existing) == false;
      k := f.Key();
    }
  }

  /** Every piece of data that a run has brought into the zone, or given another TTL, belongs to a desired record,
      with the TTL it asks for, or to the marker of a desired key. */
  lemma WrittenData(s: Scope, desired: map<Key, Endpoint>, policy: string, kept: set<Key>, z: Zone, run: ZoneRun,
                    z': Zone, k: RRKey, d: string)
    requires Keyed(desired) && forall l :: l in desired ==> l.rtype != TXT
    requires Runs(s, desired, policy, kept, z, run, z') && d in At(z', k) && !Kept(z, z', k, d)
    ensures exists key :: WrittenAt(s, desired, key, k, d, At(z', k)[d])
  {
    var out := Decorated(s.owner, run.changes, ExistingIn(s.owner, run.second));
    var u := DataOrigin(z, Message(out), k, d);
    var e := InsertServes(out, u);
    var key := PlannedFor(s, desired, policy, kept, z, run, e);
    ServedAsAsked(s, desired, key, e, u);
    assert WrittenAt(s, desired, key, k, d, At(z', k)[d]);
  }

  lemma ServedAsAsked(s: Scope, desired: map<Key, Endpoint>, key: Key, e: Endpoint, u: UpdateRR)
    requires Keyed(desired) && key in desired && key.rtype != TXT && u.Insert? && Serves(u, e)
    requires e == desired[key] || e == Marker(s.owner, desired[key])
    ensures WrittenAt(s, desired, key, u.key, u.data, ServedTtl(u.ttl))
  {
    MarkerSpelled(s.owner, desired[key]);
  }
}
