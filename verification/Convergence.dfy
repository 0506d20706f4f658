/** Reconciling into an RFC 2136 zone: what one run and two runs achieve. */
module Convergence {
  import opened GoText
  import opened Endpoints
  import opened Planning
  import opened Registry
  import opened DnsZone
  import opened Rfc2136
  import opened ZoneChoice

  /** The fixed part of a reconciler: its registry and its domain filter. */
  datatype Scope = Scope(owner: Owner, filter: seq<string>)

  /** The current records of a run that read `m`: owned and in scope. */
  ghost function Current(s: Scope, m: map<Key, Endpoint>): map<Key, Endpoint> {
    map k | k in OwnedMap(s.owner, m) && InDomain(s.filter, k.name) :: m[k]
  }

  /** One run against a zone: the reading the plan was made from, the reading the
      registry looked for existing markers in, and the changes. */
  datatype ZoneRun = ZoneRun(first: map<Key, Endpoint>, second: map<Key, Endpoint>, changes: Changes)

  /** An error-free `Run` takes the zone from `z` to `z'`; `kept` are the keys under grace. */
  ghost predicate Runs(s: Scope, desired: map<Key, Endpoint>, policy: string, kept: set<Key>, z: Zone, run: ZoneRun,
                       z': Zone)
  {
    && ReadsZone(z, run.first) && ReadsZone(z, run.second)
    && IsPlanKeeping(desired, Current(s, run.first), policy, kept, run.changes)
    && z' == if run.changes.Empty() then z
             else Process(z, Message(Decorated(s.owner, run.changes, ExistingIn(s.owner, run.second))))
  }

  // ---- which desired endpoints a zone can hold --------------------------------

  /** The zone stores the endpoint so that it reads back as asked for: no proxied
      flag to lose, a TTL that fits its field, distinct data, one CNAME. */
  predicate Storable(e: Endpoint) {
    && (PROXIED in e.labels ==> e.labels[PROXIED] == "")
    && 0 <= e.ttl < 0x8000_0000
    && Distinct(e.targets)
    && (e.rtype == CNAME ==> |e.targets| == 1)
  }

  lemma {:induction false} InsertedShape(rs: RRset, e: Endpoint, n: nat)
    requires n <= |e.targets| && e.rtype != CNAME
    ensures forall v :: v in Inserted(rs, e, n) <==> v in rs || v in e.targets[..n]
    ensures forall v :: v in e.targets[..n] ==> Inserted(rs, e, n)[v] == ZoneTtl(e.ttl)
    ensures forall v :: v in rs && v !in e.targets[..n] ==> Inserted(rs, e, n)[v] == rs[v]
  {
    if n > 0 {
      InsertedShape(rs, e, n - 1);
      assert e.targets[..n] == e.targets[..n - 1] + [e.targets[n - 1]];
    }
  }

  lemma DistinctFromMultiset(s: seq<string>, t: seq<string>)
    requires Distinct(s) && multiset(s) == multiset(t)
    ensures Distinct(t)
  {
    forall i, j | 0 <= i < j < |t| ensures t[i] != t[j] {
      DistinctCounts(s, t[i]);
      if t[i] == t[j] { TwicePresent(t, i, j); }
    }
  }

  lemma TwicePresent(t: seq<string>, i: nat, j: nat)
    requires i < j < |t| && t[i] == t[j]
    ensures multiset(t)[t[i]] >= 2
  {
    var left, right := t[..j], t[j..];
    assert t == left + right && left[i] == t[i] == right[0];
    assert t[i] in multiset(left) && t[i] in multiset(right);
  }

  lemma DistinctSameMultiset(s: seq<string>, t: seq<string>)
    requires Distinct(s) && Distinct(t)
    ensures multiset(s) == multiset(t) <==> forall v :: v in s <==> v in t
  {
    if forall v :: v in s <==> v in t {
      forall v ensures multiset(s)[v] == multiset(t)[v] {
        DistinctCounts(s, v);
        DistinctCounts(t, v);
      }
    } else {
      var v :| (v in s) != (v in t);
      DistinctCounts(s, v);
      DistinctCounts(t, v);
    }
  }

  /** Writing an endpoint and reading it back needs no further update exactly when it is storable. */
  lemma ReadBackExact(e: Endpoint, h: Endpoint)
    requires e.targets != [] && ReadsRRset(Inserted(map[], e), h)
    ensures Same(e, h) <==> Storable(e)
  {
    var n := |e.targets|;
    assert e.targets[..n] == e.targets;
    if e.rtype == CNAME {
      var last := e.targets[n - 1];
      assert Inserted(map[], e) == map[last := ZoneTtl(e.ttl)];
      assert h.targets[0] in h.targets;
      assert forall i :: 0 <= i < |h.targets| ==> h.targets[i] in h.targets;
      assert |h.targets| == 1;
      assert h.targets == [last] && h.ttl == ZoneTtl(e.ttl);
      if multiset(e.targets) == multiset(h.targets) {
        assert |multiset(e.targets)| == n;
      }
      if n == 1 { assert e.targets == [last]; }
    } else {
      InsertedShape(map[], e, n);
      assert h.targets[0] in h.targets;
      assert h.ttl == ZoneTtl(e.ttl);
      if Distinct(e.targets) {
        DistinctSameMultiset(e.targets, h.targets);
      } else if multiset(h.targets) == multiset(e.targets) {
        DistinctFromMultiset(h.targets, e.targets);
      }
    }
  }

  /** What the run's theorems ask of the desired records: managed, storable, in scope,
      no name with both a CNAME and something else, no data name used as a marker name. */
  ghost predicate Publishable(s: Scope, desired: map<Key, Endpoint>) {
    && (forall k ::
         k in desired ==> desired[k].Key() == k && k.rtype != TXT && k.name != "" && InDomain(s.filter, k.name))
    && (forall k :: k in desired ==> desired[k].targets != [] && Storable(desired[k]))
    && (forall k, l :: k in desired && l in desired ==> !Opposes(ZoneKey(k), ZoneKey(l)))
    && (forall k, l :: k in desired && l in desired ==> TxtName(s.owner, k) != l.name)
  }

  // ---- what the zone says about ownership --------------------------------------

  function MarkerSet(z: Zone, name: string): RRset {
    At(z, ZoneKey(RecordKey(TXT, name)))
  }

  /** An own marker sits at `name`. */
  ghost predicate OwnAt(r: Owner, z: Zone, name: string) {
    exists v :: v in MarkerSet(z, name) && OwnsValue(r, v)
  }

  ghost predicate ClaimsAt(r: Owner, z: Zone, name: string, text: string) {
    OwnAt(r, z, name) && RealKey(r, name) == Some(text)
  }

  ghost predicate ClaimedBy(r: Owner, z: Zone, text: string) {
    exists name :: ClaimsAt(r, z, name, text)
  }

  /** No TXT RRset mixes own markers with other data. */
  ghost predicate Unmixed(r: Owner, z: Zone) {
    forall name, v, w :: v in MarkerSet(z, name) && w in MarkerSet(z, name) ==> OwnsValue(r, v) == OwnsValue(r, w)
  }

  lemma ReadMarkers(r: Owner, z: Zone, m: map<Key, Endpoint>)
    requires Unmixed(r, z) && ReadsZone(z, m)
    ensures forall name :: (RecordKey(TXT, name) in m && Owns(r, m[RecordKey(TXT, name)])) <==> OwnAt(r, z, name)
    ensures forall text :: Claimed(r, m, text) <==> ClaimedBy(r, z, text)
    ensures ExistingIn(r, m) == set t | t in m && t.rtype == TXT && OwnAt(r, z, t.name) :: t.name
  {
    forall name ensures (RecordKey(TXT, name) in m && Owns(r, m[RecordKey(TXT, name)])) <==> OwnAt(r, z, name) {
      var k := RecordKey(TXT, name);
      if k in m {
        assert m[k].targets[0] in m[k].targets;
      }
      if OwnAt(r, z, name) {
        var v :| v in MarkerSet(z, name) && OwnsValue(r, v);
        assert MarkerSet(z, name) != map[];
      }
    }
    forall text ensures Claimed(r, m, text) <==> ClaimedBy(r, z, text) {
      if Claimed(r, m, text) {
        var t :| Claims(r, m, t, text);
        assert t == RecordKey(TXT, t.name);
        assert ClaimsAt(r, z, t.name, text);
      }
      if ClaimedBy(r, z, text) {
        var name :| ClaimsAt(r, z, name, text);
        assert Claims(r, m, RecordKey(TXT, name), text);
      }
    }
    forall t | t in m && t.rtype == TXT ensures Owns(r, m[t]) == OwnAt(r, z, t.name) {
      assert t == RecordKey(TXT, t.name);
    }
  }

  /** The side conditions on the zone: nothing foreign at a desired name or at the
      marker name of a desired key, one TTL for each desired RRset (section 5.2 of RFC 2181). */
  ghost predicate Clean(s: Scope, desired: map<Key, Endpoint>, z: Zone) {
    && Unmixed(s.owner, z)
    && (forall k, l: RRKey :: k in desired && l.name == k.name && At(z, l) != map[] ==>
          l.rtype.Known? && l.rtype.rtype != TXT && ClaimedBy(s.owner, z, KeyText(RecordKey(l.rtype.rtype, l.name))))
    && (forall k, l: RRKey :: k in desired && l.name == TxtName(s.owner, k) && At(z, l) != map[] ==>
          l.rtype == Known(TXT) && OwnAt(s.owner, z, l.name))
    && (forall k, v, w :: k in desired && v in At(z, ZoneKey(k)) && w in At(z, ZoneKey(k)) ==>
          At(z, ZoneKey(k))[v] == At(z, ZoneKey(k))[w])
  }

  /** A zone without records meets them. */
  lemma EmptyZoneIsClean(s: Scope, desired: map<Key, Endpoint>)
    ensures Clean(s, desired, map[])
  {
  }

  /** An address and an alias, under the default owner id and prefix, are publishable. */
  lemma ExampleIsPublishable()
    ensures var a := Endpoint("app", ["192.0.2.1", "192.0.2.2"], A, 300, map[]);
      var c := Endpoint("www", ["app"], CNAME, 0, map[]);
      Publishable(Scope(Owner("munpae", "munpae."), []), map[a.Key() := a, c.Key() := c])
  {
  }

  /** The zone already holds what `e` asks for. */
  ghost predicate Settled(z: Zone, e: Endpoint) {
    var rs := At(z, ZoneKey(e.Key()));
    && rs != map[]
    && (forall v :: v in rs <==> v in e.targets)
    && (forall v :: v in rs ==> e.ttl == 0 || e.ttl == rs[v])
  }

  lemma SameIffSettled(z: Zone, e: Endpoint, h: Endpoint)
    requires Storable(e)
    requires var rs := At(z, ZoneKey(e.Key()));
      ReadsRRset(rs, h) && forall v, w :: v in rs && w in rs ==> rs[v] == rs[w]
    ensures Same(e, h) <==> Settled(z, e)
  {
    DistinctSameMultiset(e.targets, h.targets);
    assert h.targets[0] in h.targets;
  }

  // ---- one run ------------------------------------------------------------------

  lemma CurrentKeys(s: Scope, desired: map<Key, Endpoint>, z: Zone, m: map<Key, Endpoint>)
    requires Clean(s, desired, z) && ReadsZone(z, m)
    ensures forall k :: k in Current(s, m) <==>
      At(z, ZoneKey(k)) != map[] && k.rtype != TXT && ClaimedBy(s.owner, z, KeyText(k)) && InDomain(s.filter, k.name)
  {
    ReadMarkers(s.owner, z, m);
  }

  lemma CurrentDesired(s: Scope, desired: map<Key, Endpoint>, z: Zone, m: map<Key, Endpoint>)
    requires Publishable(s, desired) && Clean(s, desired, z) && ReadsZone(z, m)
    ensures forall k :: k in desired ==> (k in Current(s, m) <==> At(z, ZoneKey(k)) != map[])
    ensures forall k ::
      k in desired && k in Current(s, m) ==> (Same(desired[k], Current(s, m)[k]) <==> Settled(z, desired[k]))
  {
    CurrentKeys(s, desired, z, m);
    forall k | k in desired ensures
      && (k in Current(s, m) <==> At(z, ZoneKey(k)) != map[])
      && (k in Current(s, m) ==> (Same(desired[k], Current(s, m)[k]) <==> Settled(z, desired[k])))
    {
      assert ZoneKey(k).name == k.name;
      if k in Current(s, m) {
        SameIffSettled(z, desired[k], m[k]);
      }
    }
  }

  /** A change set a plan for `desired` can hand to the registry. */
  ghost predicate Drawn(desired: map<Key, Endpoint>, ch: Changes) {
    && KeyDisjoint(ch) && NoMarkers(ch)
    && (forall e :: e in ch.create || e in ch.update ==> e.Key() in desired && desired[e.Key()] == e)
    && (forall e :: e in ch.delete ==> e.Key() !in desired && e.targets != [])
  }

  /** What a run writes, stated on the zone it starts from. */
  ghost predicate Writes(desired: map<Key, Endpoint>, z: Zone, ch: Changes) {
    && Drawn(desired, ch)
    && (forall e :: e in ch.create <==> e.Key() in desired && desired[e.Key()] == e && At(z, ZoneKey(e.Key())) == map[])
    && (forall e :: e in ch.update <==>
         e.Key() in desired && desired[e.Key()] == e && At(z, ZoneKey(e.Key())) != map[] && !Settled(z, e))
  }

  /** What a `sync` run with no key under grace deletes. */
  ghost predicate Sweeps(s: Scope, desired: map<Key, Endpoint>, z: Zone, ch: Changes) {
    forall k :: k !in desired && At(z, ZoneKey(k)) != map[] && k.rtype != TXT && ClaimedBy(s.owner, z, KeyText(k))
      && InDomain(s.filter, k.name)
      ==> exists e :: e in ch.delete && e.Key() == k
  }

  lemma CurrentReads(s: Scope, z: Zone, m: map<Key, Endpoint>)
    requires ReadsZone(z, m)
    ensures Keyed(Current(s, m)) && forall k :: k in Current(s, m) ==> k.rtype != TXT && Current(s, m)[k].targets != []
  {
  }

  lemma KeepingIsDrawn(desired: map<Key, Endpoint>, current: map<Key, Endpoint>, policy: string, kept: set<Key>,
                       ch: Changes)
    requires Keyed(desired) && (forall k :: k in desired ==> k.rtype != TXT)
    requires Keyed(current) && forall k :: k in current ==> k.rtype != TXT && current[k].targets != []
    requires IsPlanKeeping(desired, current, policy, kept, ch)
    ensures Drawn(desired, ch) && forall e :: e in ch.delete ==> e.Key() in current
  {
    forall e | e in ch.delete ensures e.Key() in current && e.Key() !in desired && e.targets != [] && e.rtype != TXT {
      assert e.Key() in Deletes(desired, current, policy);
    }
  }

  lemma PlanIsDrawn(s: Scope, desired: map<Key, Endpoint>, z: Zone, m: map<Key, Endpoint>, policy: string,
                    kept: set<Key>, ch: Changes)
    requires Keyed(desired) && (forall k :: k in desired ==> k.rtype != TXT)
    requires ReadsZone(z, m) && IsPlanKeeping(desired, Current(s, m), policy, kept, ch)
    ensures Drawn(desired, ch) && forall e :: e in ch.delete ==> e.Key() in Current(s, m)
  {
    CurrentReads(s, z, m);
    KeepingIsDrawn(desired, Current(s, m), policy, kept, ch);
  }

  lemma RunWrites(s: Scope, desired: map<Key, Endpoint>, z: Zone, m: map<Key, Endpoint>, policy: string, kept: set<Key>,
                  ch: Changes)
    requires Publishable(s, desired) && Clean(s, desired, z) && ReadsZone(z, m)
    requires IsPlanKeeping(desired, Current(s, m), policy, kept, ch)
    ensures Writes(desired, z, ch)
  {
    var cur := Current(s, m);
    PlanIsDrawn(s, desired, z, m, policy, kept, ch);
    CurrentDesired(s, desired, z, m);
    forall e
      ensures e in ch.create <==> e.Key() in desired && desired[e.Key()] == e && At(z, ZoneKey(e.Key())) == map[]
    {
      assert e.Key() in Creates(desired, cur) <==> e.Key() in desired && e.Key() !in cur;
    }
    forall e
      ensures e in ch.update <==>
        e.Key() in desired && desired[e.Key()] == e && At(z, ZoneKey(e.Key())) != map[] && !Settled(z, e)
    {
      assert e.Key() in Updates(desired, cur) <==>
        e.Key() in desired && e.Key() in cur && !Same(desired[e.Key()], cur[e.Key()]);
    }
  }

  lemma RunSweeps(s: Scope, desired: map<Key, Endpoint>, z: Zone, m: map<Key, Endpoint>, ch: Changes)
    requires Clean(s, desired, z) && ReadsZone(z, m)
    requires IsPlan(desired, Current(s, m), "sync", ch)
    ensures Sweeps(s, desired, z, ch)
  {
    var cur := Current(s, m);
    CurrentKeys(s, desired, z, m);
    forall k | k !in desired && k in cur ensures exists e :: e in ch.delete && e.Key() == k {
      assert k in Deletes(desired, cur, "sync");
      assert cur[k] in ch.delete && cur[k].Key() == k;
    }
  }

  /** What a run may create: desired endpoints and markers of desired keys. */
  ghost predicate FromDesired(s: Scope, desired: map<Key, Endpoint>, es: seq<Endpoint>) {
    forall e ::
      e in es ==> e.Key() in desired || (e.rtype == TXT && exists k :: k in desired && e.name == TxtName(s.owner, k))
  }

  lemma FromDesiredUnopposed(s: Scope, desired: map<Key, Endpoint>, es: seq<Endpoint>, fs: seq<Endpoint>)
    requires Publishable(s, desired) && FromDesired(s, desired, es) && FromDesired(s, desired, fs)
    ensures NoOpposition(es, fs)
  {
    forall k, l | Mentions(es, k) && Mentions(fs, l) ensures !Opposes(k, l) {
      var e :| e in es && ZoneKey(e.Key()) == k;
      var f :| f in fs && ZoneKey(f.Key()) == l;
      assert e.Key() in desired && f.Key() in desired ==> !Opposes(k, l);
    }
  }

  lemma DecoratedIsWritable(s: Scope, desired: map<Key, Endpoint>, ch: Changes, existing: set<string>)
    requires Publishable(s, desired) && Drawn(desired, ch)
    ensures Writable(Decorated(s.owner, ch, existing))
  {
    var out := Decorated(s.owner, ch, existing);
    DecoratedIsKeyDisjoint(s.owner, ch, existing);
    MarkersOf(s.owner, ch.create, existing, false);
    MarkersOf(s.owner, ch.delete, existing, true);
    assert FromDesired(s, desired, out.create);
    assert FromDesired(s, desired, out.update);
    FromDesiredUnopposed(s, desired, out.create, out.create);
    FromDesiredUnopposed(s, desired, out.create, out.update);
    FromDesiredUnopposed(s, desired, out.update, out.update);
  }

  /** The names at which own markers sit. */
  ghost predicate OwnNames(r: Owner, z: Zone, existing: set<string>) {
    forall name :: name in existing <==> OwnAt(r, z, name)
  }

  /** What a run makes of the RRset a desired endpoint asks for. */
  ghost function Landed(z: Zone, e: Endpoint): RRset {
    if Settled(z, e) then At(z, ZoneKey(e.Key()))
    else if Clash(z, ZoneKey(e.Key())) then map[]
    else Inserted(map[], e)
  }

  /** The data records after a run. */
  ghost predicate DataLanded(s: Scope, desired: map<Key, Endpoint>, z: Zone, z': Zone) {
    && (forall k :: k in desired ==> At(z', ZoneKey(k)) == Landed(z, desired[k]))
    && (forall k: Key :: k !in desired && k.rtype != TXT && At(z', ZoneKey(k)) != map[] ==>
          At(z', ZoneKey(k)) == At(z, ZoneKey(k)) && !(ClaimedBy(s.owner, z, KeyText(k)) && InDomain(s.filter, k.name)))
    && (forall l: RRKey :: l.rtype.Other? ==> At(z', l) == At(z, l))
  }

  /** The markers after a run. */
  ghost predicate MarkersLanded(s: Scope, desired: map<Key, Endpoint>, z: Zone, z': Zone) {
    && (forall k :: k in desired && At(z, ZoneKey(k)) == map[] ==> OwnAt(s.owner, z', TxtName(s.owner, k)))
    && (forall k :: k in desired && OwnAt(s.owner, z, TxtName(s.owner, k)) ==>
          MarkerSet(z', TxtName(s.owner, k)) == MarkerSet(z, TxtName(s.owner, k)))
    && (forall name :: MarkerSet(z', name) != MarkerSet(z, name) ==>
          || (MarkerSet(z', name) == map[MarkerValue(s.owner) := DEFAULT_TTL]
               && exists k :: k in desired && name == TxtName(s.owner, k))
          || (MarkerSet(z', name) == map[] && exists k: Key :: k !in desired && name == TxtName(s.owner, k)))
  }

  lemma MarkerInserted(r: Owner, e: Endpoint)
    ensures Inserted(map[], Marker(r, e)) == map[MarkerValue(r) := DEFAULT_TTL]
  {
    var m := Marker(r, e);
    assert Inserted(map[], m, 0) == map[];
    assert Inserted(map[], m, 1) == map[MarkerValue(r) := DEFAULT_TTL];
  }

  ghost function AfterRun(s: Scope, z: Zone, ch: Changes, existing: set<string>): Zone {
    Process(z, Message(Decorated(s.owner, ch, existing)))
  }

  lemma DesiredLands(s: Scope, desired: map<Key, Endpoint>, z: Zone, ch: Changes, existing: set<string>, k: Key)
    requires Publishable(s, desired) && Writes(desired, z, ch) && k in desired
    ensures At(AfterRun(s, z, ch, existing), ZoneKey(k)) == Landed(z, desired[k])
  {
    if At(z, ZoneKey(k)) != map[] && Settled(z, desired[k]) {
      SettledLands(s, desired, z, ch, existing, k);
    } else {
      WrittenLands(s, desired, z, ch, existing, k);
    }
  }

  lemma SettledLands(s: Scope, desired: map<Key, Endpoint>, z: Zone, ch: Changes, existing: set<string>, k: Key)
    requires Publishable(s, desired) && Writes(desired, z, ch) && k in desired && Settled(z, desired[k])
    ensures At(AfterRun(s, z, ch, existing), ZoneKey(k)) == At(z, ZoneKey(k))
  {
    DecoratedIsWritable(s, desired, ch, existing);
    ApplyEffect(z, Decorated(s.owner, ch, existing));
    DataMentions(s.owner, ch, existing, k);
  }

  lemma WrittenLands(s: Scope, desired: map<Key, Endpoint>, z: Zone, ch: Changes, existing: set<string>, k: Key)
    requires Publishable(s, desired) && Writes(desired, z, ch) && k in desired && !Settled(z, desired[k])
    ensures At(AfterRun(s, z, ch, existing), ZoneKey(k)) ==
      if Clash(z, ZoneKey(k)) then map[] else Inserted(map[], desired[k])
  {
    var e, out := desired[k], Decorated(s.owner, ch, existing);
    assert e.Key() == k;
    DecoratedIsWritable(s, desired, ch, existing);
    ApplyEffect(z, out);
    assert e in out.create || e in out.update;
  }

  lemma OthersLand(s: Scope, desired: map<Key, Endpoint>, z: Zone, ch: Changes, existing: set<string>, k: Key)
    requires Publishable(s, desired) && Drawn(desired, ch) && k !in desired && k.rtype != TXT
    ensures At(AfterRun(s, z, ch, existing), ZoneKey(k)) ==
      if exists e :: e in ch.delete && e.Key() == k then map[] else At(z, ZoneKey(k))
  {
    var out := Decorated(s.owner, ch, existing);
    DecoratedIsWritable(s, desired, ch, existing);
    ApplyEffect(z, out);
    DataMentions(s.owner, ch, existing, k);
    if e :| e in ch.delete && e.Key() == k {
      assert e in out.delete;
    }
  }

  lemma DataLands(s: Scope, desired: map<Key, Endpoint>, z: Zone, ch: Changes, existing: set<string>)
    requires Publishable(s, desired) && Writes(desired, z, ch) && Sweeps(s, desired, z, ch)
    ensures DataLanded(s, desired, z, AfterRun(s, z, ch, existing))
  {
    var z' := AfterRun(s, z, ch, existing);
    forall k | k in desired ensures At(z', ZoneKey(k)) == Landed(z, desired[k]) {
      DesiredLands(s, desired, z, ch, existing, k);
    }
    forall k: Key | k !in desired && k.rtype != TXT && At(z', ZoneKey(k)) != map[] ensures
      At(z', ZoneKey(k)) == At(z, ZoneKey(k)) && !(ClaimedBy(s.owner, z, KeyText(k)) && InDomain(s.filter, k.name))
    {
      OthersLand(s, desired, z, ch, existing, k);
    }
    forall l: RRKey | l.rtype.Other? ensures At(z', l) == At(z, l) {
      DecoratedIsWritable(s, desired, ch, existing);
      ApplyEffect(z, Decorated(s.owner, ch, existing));
    }
  }

  lemma DataMentions(r: Owner, ch: Changes, existing: set<string>, k: Key)
    requires k.rtype != TXT
    ensures var out := Decorated(r, ch, existing);
      && (Mentions(out.create, ZoneKey(k)) <==> exists e :: e in ch.create && e.Key() == k)
      && (Mentions(out.delete, ZoneKey(k)) <==> exists e :: e in ch.delete && e.Key() == k)
      && (Mentions(out.update, ZoneKey(k)) <==> exists e :: e in ch.update && e.Key() == k)
  {
    MarkersOf(r, ch.create, existing, false);
    MarkersOf(r, ch.delete, existing, true);
    var out := Decorated(r, ch, existing);
    forall e | e in ch.create && e.Key() == k ensures e in out.create {}
    forall e | e in ch.delete && e.Key() == k ensures e in out.delete {}
  }

  /** Which marker RRsets a change set touches, and how. */
  lemma MarkerLands(s: Scope, desired: map<Key, Endpoint>, z: Zone, ch: Changes, existing: set<string>, name: string)
    requires Publishable(s, desired) && Clean(s, desired, z) && Writes(desired, z, ch)
    requires OwnNames(s.owner, z, existing)
    ensures MarkerSet(AfterRun(s, z, ch, existing), name) ==
      if name !in existing && exists e :: e in ch.create && name == TxtName(s.owner, e.Key())
        then map[MarkerValue(s.owner) := DEFAULT_TTL]
      else if name in existing && exists e :: e in ch.delete && name == TxtName(s.owner, e.Key()) then map[]
      else MarkerSet(z, name)
  {
    if e :| name !in existing && e in ch.create && name == TxtName(s.owner, e.Key()) {
      MarkerCreated(s, desired, z, ch, existing, e);
    } else if e :| name in existing && e in ch.delete && name == TxtName(s.owner, e.Key()) {
      MarkerDeleted(s, desired, z, ch, existing, e);
    } else {
      MarkerUntouched(s, desired, z, ch, existing, name);
    }
  }

  lemma MarkerCreated(s: Scope, desired: map<Key, Endpoint>, z: Zone, ch: Changes, existing: set<string>, e: Endpoint)
    requires Publishable(s, desired) && Clean(s, desired, z) && Writes(desired, z, ch) && OwnNames(s.owner, z, existing)
    requires e in ch.create && TxtName(s.owner, e.Key()) !in existing
    ensures MarkerSet(AfterRun(s, z, ch, existing), TxtName(s.owner, e.Key())) ==
      map[MarkerValue(s.owner) := DEFAULT_TTL]
  {
    var m, out := Marker(s.owner, e), Decorated(s.owner, ch, existing);
    var l := ZoneKey(m.Key());
    assert e.Key() in desired && l.name == TxtName(s.owner, e.Key());
    assert !Clash(z, l) && At(z, l) == map[];
    MarkersOf(s.owner, ch.create, existing, false);
    DecoratedIsWritable(s, desired, ch, existing);
    ApplyEffect(z, out);
    assert m in out.create;
    MarkerInserted(s.owner, e);
  }

  lemma MarkerDeleted(s: Scope, desired: map<Key, Endpoint>, z: Zone, ch: Changes, existing: set<string>, e: Endpoint)
    requires Publishable(s, desired) && Drawn(desired, ch) && e in ch.delete && TxtName(s.owner, e.Key()) in existing
    ensures MarkerSet(AfterRun(s, z, ch, existing), TxtName(s.owner, e.Key())) == map[]
  {
    MarkersOf(s.owner, ch.delete, existing, true);
    DecoratedIsWritable(s, desired, ch, existing);
    ApplyEffect(z, Decorated(s.owner, ch, existing));
    assert Marker(s.owner, e) in Decorated(s.owner, ch, existing).delete;
  }

  lemma MarkerUntouched(s: Scope, desired: map<Key, Endpoint>, z: Zone, ch: Changes, existing: set<string>,
                        name: string)
    requires Publishable(s, desired) && Drawn(desired, ch)
    requires !(name !in existing && exists e :: e in ch.create && name == TxtName(s.owner, e.Key()))
    requires !(name in existing && exists e :: e in ch.delete && name == TxtName(s.owner, e.Key()))
    ensures MarkerSet(AfterRun(s, z, ch, existing), name) == MarkerSet(z, name)
  {
    var out, l := Decorated(s.owner, ch, existing), ZoneKey(RecordKey(TXT, name));
    MarkersOf(s.owner, ch.create, existing, false);
    MarkersOf(s.owner, ch.delete, existing, true);
    DecoratedIsWritable(s, desired, ch, existing);
    ApplyEffect(z, out);
    assert !Mentions(out.update, l) && !Mentions(out.create, l) && !Mentions(out.delete, l);
  }

  lemma CreatedMarker(s: Scope, desired: map<Key, Endpoint>, z: Zone, ch: Changes, existing: set<string>, k: Key)
    requires Publishable(s, desired) && Clean(s, desired, z) && Writes(desired, z, ch) && OwnNames(s.owner, z, existing)
    requires k in desired && At(z, ZoneKey(k)) == map[]
    ensures OwnAt(s.owner, AfterRun(s, z, ch, existing), TxtName(s.owner, k))
  {
    var name := TxtName(s.owner, k);
    MarkerLands(s, desired, z, ch, existing, name);
    assert desired[k] in ch.create;
    if name !in existing {
      OwnsItsMarkers(s.owner);
      assert MarkerValue(s.owner) in MarkerSet(AfterRun(s, z, ch, existing), name);
    } else {
      KeptMarker(s, desired, z, ch, existing, k);
    }
  }

  lemma KeptMarker(s: Scope, desired: map<Key, Endpoint>, z: Zone, ch: Changes, existing: set<string>, k: Key)
    requires Publishable(s, desired) && Clean(s, desired, z) && Writes(desired, z, ch) && OwnNames(s.owner, z, existing)
    requires k in desired && OwnAt(s.owner, z, TxtName(s.owner, k))
    ensures MarkerSet(AfterRun(s, z, ch, existing), TxtName(s.owner, k)) == MarkerSet(z, TxtName(s.owner, k))
  {
    MarkerLands(s, desired, z, ch, existing, TxtName(s.owner, k));
    forall e | e in ch.delete ensures TxtName(s.owner, k) != TxtName(s.owner, e.Key()) {
      TxtNameInjective(s.owner, k, e.Key());
    }
  }

  lemma MarkersLand(s: Scope, desired: map<Key, Endpoint>, z: Zone, ch: Changes, existing: set<string>)
    requires Publishable(s, desired) && Clean(s, desired, z) && Writes(desired, z, ch) && OwnNames(s.owner, z, existing)
    ensures MarkersLanded(s, desired, z, AfterRun(s, z, ch, existing))
  {
    var z' := AfterRun(s, z, ch, existing);
    forall k | k in desired && At(z, ZoneKey(k)) == map[] ensures OwnAt(s.owner, z', TxtName(s.owner, k)) {
      CreatedMarker(s, desired, z, ch, existing, k);
    }
    forall k | k in desired && OwnAt(s.owner, z, TxtName(s.owner, k))
      ensures MarkerSet(z', TxtName(s.owner, k)) == MarkerSet(z, TxtName(s.owner, k))
    {
      KeptMarker(s, desired, z, ch, existing, k);
    }
    forall name | MarkerSet(z', name) != MarkerSet(z, name) ensures
      || (MarkerSet(z', name) == map[MarkerValue(s.owner) := DEFAULT_TTL]
           && exists k :: k in desired && name == TxtName(s.owner, k))
      || (MarkerSet(z', name) == map[] && exists k: Key :: k !in desired && name == TxtName(s.owner, k))
    {
      MarkerLands(s, desired, z, ch, existing, name);
    }
  }

  // ---- the state a run leaves ------------------------------------------------------

  lemma ClaimSurvives(s: Scope, desired: map<Key, Endpoint>, z: Zone, z': Zone, k: Key)
    requires Publishable(s, desired) && MarkersLanded(s, desired, z, z') && k in desired
    requires At(z, ZoneKey(k)) == map[] || ClaimedBy(s.owner, z, KeyText(k))
    ensures ClaimedBy(s.owner, z', KeyText(k))
  {
    var r := s.owner;
    RealKeyOfTxtName(r, k);
    OwnsItsMarkers(r);
    if At(z, ZoneKey(k)) == map[] {
      assert ClaimsAt(r, z', TxtName(r, k), KeyText(k));
    } else {
      var name :| ClaimsAt(r, z, name, KeyText(k));
      forall l: Key | name == TxtName(r, l) ensures l == k {
        RealKeyOfTxtName(r, l);
        KeyTextInjective(k, l);
      }
      assert MarkerSet(z', name) == MarkerSet(z, name);
      assert ClaimsAt(r, z', name, KeyText(k));
    }
  }

  lemma ClaimedAfter(s: Scope, desired: map<Key, Endpoint>, z: Zone, z': Zone, k: Key)
    requires Publishable(s, desired) && Clean(s, desired, z) && MarkersLanded(s, desired, z, z')
    requires k in desired
    ensures ClaimedBy(s.owner, z', KeyText(k))
  {
    assert ZoneKey(k).name == k.name;
    ClaimSurvives(s, desired, z, z', k);
  }

  lemma NoNewClaims(s: Scope, desired: map<Key, Endpoint>, z: Zone, z': Zone, k: Key)
    requires Publishable(s, desired) && MarkersLanded(s, desired, z, z') && k !in desired
    requires ClaimedBy(s.owner, z', KeyText(k))
    ensures ClaimedBy(s.owner, z, KeyText(k))
  {
    var name :| ClaimsAt(s.owner, z', name, KeyText(k));
    if MarkerSet(z', name) != MarkerSet(z, name) {
      var l :| l in desired && name == TxtName(s.owner, l);
      RealKeyOfTxtName(s.owner, l);
      KeyTextInjective(k, l);
    }
    assert ClaimsAt(s.owner, z, name, KeyText(k));
  }

  lemma NamesHoldDesired(s: Scope, desired: map<Key, Endpoint>, z: Zone, z': Zone, k: Key, l: RRKey)
    requires Publishable(s, desired) && Clean(s, desired, z) && DataLanded(s, desired, z, z')
      && MarkersLanded(s, desired, z, z')
    requires k in desired && l.name == k.name && At(z', l) != map[]
    ensures l.rtype.Known? && l.rtype.rtype != TXT && RecordKey(l.rtype.rtype, l.name) in desired
  {
    assert MarkerSet(z, k.name) == map[] && MarkerSet(z', k.name) == map[];
    if l.rtype.Known? {
      assert l == ZoneKey(RecordKey(l.rtype.rtype, l.name));
    }
  }

  /** In-scope owned data records are desired ones. */
  ghost predicate NothingStale(s: Scope, desired: map<Key, Endpoint>, z: Zone) {
    forall k: Key ::
      At(z, ZoneKey(k)) != map[] && k.rtype != TXT && ClaimedBy(s.owner, z, KeyText(k)) && InDomain(s.filter, k.name)
      ==> k in desired
  }

  lemma InsertedSettles(z: Zone, e: Endpoint)
    requires e.targets != [] && Storable(e) && At(z, ZoneKey(e.Key())) == Inserted(map[], e)
    ensures Settled(z, e)
    ensures forall v, w ::
      v in Inserted(map[], e) && w in Inserted(map[], e) ==> Inserted(map[], e)[v] == Inserted(map[], e)[w]
  {
    var n := |e.targets|;
    assert e.targets[..n] == e.targets;
    if e.rtype == CNAME {
      assert Inserted(map[], e) == map[e.targets[0] := ZoneTtl(e.ttl)];
    } else {
      InsertedShape(map[], e, n);
    }
    assert e.targets[0] in At(z, ZoneKey(e.Key()));
  }

  lemma OnlyOwnedAgain(s: Scope, desired: map<Key, Endpoint>, z: Zone, z': Zone, k: Key, l: RRKey)
    requires Publishable(s, desired) && Clean(s, desired, z) && DataLanded(s, desired, z, z')
      && MarkersLanded(s, desired, z, z')
    requires k in desired && l.name == k.name && At(z', l) != map[]
    ensures l.rtype.Known? && l.rtype.rtype != TXT && ClaimedBy(s.owner, z', KeyText(RecordKey(l.rtype.rtype, l.name)))
  {
    NamesHoldDesired(s, desired, z, z', k, l);
    ClaimedAfter(s, desired, z, z', RecordKey(l.rtype.rtype, l.name));
  }

  lemma UniformAgain(s: Scope, desired: map<Key, Endpoint>, z: Zone, z': Zone, k: Key)
    requires Publishable(s, desired) && Clean(s, desired, z) && DataLanded(s, desired, z, z') && k in desired
    ensures forall v, w ::
      v in At(z', ZoneKey(k)) && w in At(z', ZoneKey(k)) ==> At(z', ZoneKey(k))[v] == At(z', ZoneKey(k))[w]
  {
    assert desired[k].Key() == k;
    if At(z', ZoneKey(k)) == Inserted(map[], desired[k]) {
      InsertedSettles(z', desired[k]);
    }
  }

  lemma CleanAgain(s: Scope, desired: map<Key, Endpoint>, z: Zone, z': Zone)
    requires Publishable(s, desired) && Clean(s, desired, z) && DataLanded(s, desired, z, z')
      && MarkersLanded(s, desired, z, z')
    ensures Clean(s, desired, z')
  {
    forall k, l: RRKey | k in desired && l.name == k.name && At(z', l) != map[] ensures
      l.rtype.Known? && l.rtype.rtype != TXT && ClaimedBy(s.owner, z', KeyText(RecordKey(l.rtype.rtype, l.name)))
    {
      OnlyOwnedAgain(s, desired, z, z', k, l);
    }
    forall k, l: RRKey | k in desired && l.name == TxtName(s.owner, k) && At(z', l) != map[] ensures
      l.rtype == Known(TXT) && OwnAt(s.owner, z', l.name)
    {
      MarkerNameHoldsMarker(s, desired, z, z', k, l);
    }
    forall k, v, w | k in desired && v in At(z', ZoneKey(k)) && w in At(z', ZoneKey(k)) ensures
      At(z', ZoneKey(k))[v] == At(z', ZoneKey(k))[w]
    {
      UniformAgain(s, desired, z, z', k);
    }
    UnmixedAgain(s, desired, z, z');
  }

  lemma UnmixedAgain(s: Scope, desired: map<Key, Endpoint>, z: Zone, z': Zone)
    requires Unmixed(s.owner, z) && MarkersLanded(s, desired, z, z')
    ensures Unmixed(s.owner, z')
  {
  }

  lemma MarkerNameHoldsMarker(s: Scope, desired: map<Key, Endpoint>, z: Zone, z': Zone, k: Key, l: RRKey)
    requires Publishable(s, desired) && Clean(s, desired, z) && DataLanded(s, desired, z, z')
      && MarkersLanded(s, desired, z, z')
    requires k in desired && l.name == TxtName(s.owner, k) && At(z', l) != map[]
    ensures l.rtype == Known(TXT) && OwnAt(s.owner, z', l.name)
  {
    if l.rtype.Known? {
      var key := RecordKey(l.rtype.rtype, l.name);
      assert l == ZoneKey(key);
      if l.rtype.rtype == TXT && MarkerSet(z', l.name) != MarkerSet(z, l.name) {
        OwnsItsMarkers(s.owner);
        assert MarkerValue(s.owner) in MarkerSet(z', l.name);
      }
    }
  }

  lemma NoClashAfter(s: Scope, desired: map<Key, Endpoint>, z: Zone, z': Zone, k: Key)
    requires Publishable(s, desired) && Clean(s, desired, z) && DataLanded(s, desired, z, z')
      && MarkersLanded(s, desired, z, z')
    requires k in desired
    ensures !Clash(z', ZoneKey(k))
  {
    forall l: RRKey | l.name == k.name && At(z', l) != map[] ensures !Opposes(l, ZoneKey(k)) {
      NamesHoldDesired(s, desired, z, z', k, l);
      assert l == ZoneKey(RecordKey(l.rtype.rtype, l.name));
    }
  }

  lemma NothingStaleAfter(s: Scope, desired: map<Key, Endpoint>, z: Zone, z': Zone)
    requires Publishable(s, desired) && DataLanded(s, desired, z, z') && MarkersLanded(s, desired, z, z')
    ensures NothingStale(s, desired, z')
  {
    forall k: Key | At(z', ZoneKey(k)) != map[] && k.rtype != TXT && ClaimedBy(s.owner, z', KeyText(k))
      && InDomain(s.filter, k.name)
      ensures k in desired
    {
      if k !in desired { NoNewClaims(s, desired, z, z', k); }
    }
  }

  lemma SettledAfter(s: Scope, desired: map<Key, Endpoint>, z: Zone, z': Zone, k: Key)
    requires Publishable(s, desired) && DataLanded(s, desired, z, z') && k in desired
    ensures Settled(z', desired[k]) <==> Settled(z, desired[k]) || !Clash(z, ZoneKey(k))
  {
    var e := desired[k];
    assert e.Key() == k;
    if !Settled(z, e) && !Clash(z, ZoneKey(k)) {
      InsertedSettles(z', e);
    }
  }

  /** Nothing opposes a desired key. */
  ghost predicate Unopposed(desired: map<Key, Endpoint>, z: Zone) {
    forall k :: k in desired ==> !Clash(z, ZoneKey(k))
  }

  ghost predicate AllClaimed(r: Owner, desired: map<Key, Endpoint>, z: Zone) {
    forall k :: k in desired ==> ClaimedBy(r, z, KeyText(k))
  }

  /** One error-free `sync` run with no key under grace: exactly the desired RRsets that were
      settled or unopposed are settled, nothing stale is left, nothing opposes a desired
      key any more, every desired key is claimed, and the side conditions hold again. */
  lemma OneRun(s: Scope, desired: map<Key, Endpoint>, z: Zone, run: ZoneRun, z': Zone)
    requires Publishable(s, desired) && Clean(s, desired, z) && Runs(s, desired, "sync", {}, z, run, z')
    ensures Clean(s, desired, z') && NothingStale(s, desired, z')
    ensures Unopposed(desired, z') && AllClaimed(s.owner, desired, z')
    ensures forall k :: k in desired ==> (Settled(z', desired[k]) <==> Settled(z, desired[k]) || !Clash(z, ZoneKey(k)))
  {
    RunLands(s, desired, z, run, z');
    CleanAgain(s, desired, z, z');
    NothingStaleAfter(s, desired, z, z');
    forall k | k in desired ensures !Clash(z', ZoneKey(k)) {
      NoClashAfter(s, desired, z, z', k);
    }
    forall k | k in desired ensures ClaimedBy(s.owner, z', KeyText(k)) {
      ClaimedAfter(s, desired, z, z', k);
    }
    forall k | k in desired ensures Settled(z', desired[k]) <==> Settled(z, desired[k]) || !Clash(z, ZoneKey(k)) {
      SettledAfter(s, desired, z, z', k);
    }
  }

  lemma ExistingAreOwn(r: Owner, z: Zone, m: map<Key, Endpoint>)
    requires Unmixed(r, z) && ReadsZone(z, m)
    ensures OwnNames(r, z, ExistingIn(r, m))
  {
    ReadMarkers(r, z, m);
    forall name | OwnAt(r, z, name) ensures name in ExistingIn(r, m) {
      assert RecordKey(TXT, name).name == name;
    }
  }

  lemma EmptyWritesNothing(s: Scope, z: Zone, ch: Changes, existing: set<string>)
    requires ch.Empty()
    ensures AfterRun(s, z, ch, existing) == z
  {
    var out := Decorated(s.owner, ch, existing);
    assert out.create == [] && out.update == [] && out.delete == [];
    assert Message(out) == [];
  }

  lemma KeepingNone(desired: map<Key, Endpoint>, current: map<Key, Endpoint>, policy: string, ch: Changes)
    requires IsPlanKeeping(desired, current, policy, {}, ch)
    ensures IsPlan(desired, current, policy, ch)
  {
    assert Deletes(desired, current, policy) - {} == Deletes(desired, current, policy);
  }

  lemma RunLands(s: Scope, desired: map<Key, Endpoint>, z: Zone, run: ZoneRun, z': Zone)
    requires Publishable(s, desired) && Clean(s, desired, z) && Runs(s, desired, "sync", {}, z, run, z')
    ensures DataLanded(s, desired, z, z') && MarkersLanded(s, desired, z, z')
  {
    var ch, existing := run.changes, ExistingIn(s.owner, run.second);
    KeepingNone(desired, Current(s, run.first), "sync", ch);
    RunWrites(s, desired, z, run.first, "sync", {}, ch);
    RunSweeps(s, desired, z, run.first, ch);
    ExistingAreOwn(s.owner, z, run.second);
    DataLands(s, desired, z, ch, existing);
    MarkersLand(s, desired, z, ch, existing);
    if ch.Empty() {
      EmptyWritesNothing(s, z, ch, existing);
    }
  }

  /** On such a state a plan is empty exactly when every desired RRset is settled. */
  lemma PlanEmptyIffSettled(s: Scope, desired: map<Key, Endpoint>, z: Zone, m: map<Key, Endpoint>, plan: Changes)
    requires Publishable(s, desired) && Clean(s, desired, z) && NothingStale(s, desired, z)
    requires ReadsZone(z, m) && IsPlan(desired, Current(s, m), "sync", plan)
    ensures plan.Empty() <==> forall k :: k in desired ==> Settled(z, desired[k])
  {
    CurrentKeys(s, desired, z, m);
    CurrentDesired(s, desired, z, m);
    NothingToPlan(desired, Current(s, m), "sync", plan);
    assert forall k :: k in desired ==> desired[k].Key() == k;
  }

  // ---- convergence -------------------------------------------------------------------

  /** After one run the next plan is empty exactly when no record that needed writing was
      kept out by a CNAME (or by other data, for a CNAME) at its name: creates go before deletes. */
  lemma OneRunExact(s: Scope, desired: map<Key, Endpoint>, z: Zone, run: ZoneRun, z': Zone, m: map<Key, Endpoint>,
                    next: Changes)
    requires Publishable(s, desired) && Clean(s, desired, z) && Runs(s, desired, "sync", {}, z, run, z')
    requires ReadsZone(z', m) && IsPlan(desired, Current(s, m), "sync", next)
    ensures next.Empty() <==> forall k :: k in desired ==> Settled(z, desired[k]) || !Clash(z, ZoneKey(k))
  {
    OneRun(s, desired, z, run, z');
    PlanEmptyIffSettled(s, desired, z', m, next);
  }

  lemma SecondRunSettles(s: Scope, desired: map<Key, Endpoint>, z: Zone, run: ZoneRun, z': Zone)
    requires Publishable(s, desired) && Clean(s, desired, z) && Unopposed(desired, z)
      && Runs(s, desired, "sync", {}, z, run, z')
    ensures Clean(s, desired, z') && NothingStale(s, desired, z')
    ensures forall k :: k in desired ==> Settled(z', desired[k])
  {
    OneRun(s, desired, z, run, z');
  }

  /** Two runs always suffice, even when names switch between CNAME and addresses. */
  lemma TwoRunsConverge(s: Scope, desired: map<Key, Endpoint>, z: Zone, run1: ZoneRun, z1: Zone, run2: ZoneRun,
                        z2: Zone, m: map<Key, Endpoint>, third: Changes)
    requires Publishable(s, desired) && Clean(s, desired, z)
    requires Runs(s, desired, "sync", {}, z, run1, z1) && Runs(s, desired, "sync", {}, z1, run2, z2)
    requires ReadsZone(z2, m) && IsPlan(desired, Current(s, m), "sync", third)
    ensures third.Empty()
    ensures Current(s, m).Keys == desired.Keys && forall k :: k in desired ==> Same(desired[k], Current(s, m)[k])
  {
    OneRun(s, desired, z, run1, z1);
    SecondRunSettles(s, desired, z1, run2, z2);
    SettledPlan(s, desired, z2, m, third);
  }

  lemma SettledPlan(s: Scope, desired: map<Key, Endpoint>, z: Zone, m: map<Key, Endpoint>, plan: Changes)
    requires Publishable(s, desired) && Clean(s, desired, z) && NothingStale(s, desired, z)
    requires ReadsZone(z, m) && IsPlan(desired, Current(s, m), "sync", plan)
    requires forall k :: k in desired ==> Settled(z, desired[k])
    ensures plan.Empty()
    ensures Current(s, m).Keys == desired.Keys && forall k :: k in desired ==> Same(desired[k], Current(s, m)[k])
  {
    PlanEmptyIffSettled(s, desired, z, m, plan);
    EmptyPlanMeansEqual(desired, Current(s, m), plan);
  }

  lemma EmptyPlanMeansEqual(desired: map<Key, Endpoint>, current: map<Key, Endpoint>, plan: Changes)
    requires IsPlan(desired, current, "sync", plan) && plan.Empty()
    ensures current.Keys == desired.Keys && forall k :: k in desired ==> Same(desired[k], current[k])
  {
    NothingToPlan(desired, current, "sync", plan);
  }
}
