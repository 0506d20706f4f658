/** What one run against a zone does to the records an instance owns, to
    everything else, and to records nobody claims. */
module Refinement {
  import opened GoText
  import opened Endpoints
  import opened Planning
  import opened Registry
  import opened DnsZone
  import opened Rfc2136
  import opened ZoneChoice
  import opened Convergence

  /** The instance owns a nonempty RRset at `k`. */
  ghost predicate Owned(r: Owner, z: Zone, k: Key) {
    At(z, ZoneKey(k)) != map[] && k.rtype != TXT && ClaimedBy(r, z, KeyText(k))
  }

  // ---- frame -----------------------------------------------------------------------

  /** `l` is the place of a changed record, or of the marker of a created or deleted one. */
  ghost predicate Touched(r: Owner, ch: Changes, l: RRKey) {
    exists e :: InChanges(ch, e) &&
      (l == ZoneKey(e.Key()) || ((e in ch.create || e in ch.delete) && l == ZoneKey(MarkerKey(r, e.Key()))))
  }

  lemma MarkersElsewhere(r: Owner, es: seq<Endpoint>, existing: set<string>, present: bool, l: RRKey)
    requires forall f :: f in es ==> ZoneKey(MarkerKey(r, f.Key())) != l
    ensures forall m :: m in Markers(r, es, existing, present) ==> ZoneKey(m.Key()) != l
  {
    MarkersOf(r, es, existing, present);
    forall m | m in Markers(r, es, existing, present) ensures ZoneKey(m.Key()) != l {
      var f :| f in es && m == Marker(r, f) && (TxtName(r, f.Key()) in existing) == present;
      assert m.Key() == MarkerKey(r, f.Key());
    }
  }

  lemma DecoratedTouches(r: Owner, ch: Changes, existing: set<string>, l: RRKey)
    requires !Touched(r, ch, l)
    ensures forall e :: InChanges(Decorated(r, ch, existing), e) ==> ZoneKey(e.Key()) != l
  {
    assert forall e :: InChanges(ch, e) ==> ZoneKey(e.Key()) != l;
    assert forall e :: e in ch.create || e in ch.delete ==> InChanges(ch, e) && ZoneKey(MarkerKey(r, e.Key())) != l;
    MarkersElsewhere(r, ch.create, existing, false, l);
    MarkersElsewhere(r, ch.delete, existing, true, l);
  }

  /** A run leaves every RRset alone that is neither a changed record nor its marker:
      for any zone, any desired records, any policy and any keys under grace. */
  lemma RunFrame(s: Scope, desired: map<Key, Endpoint>, policy: string, kept: set<Key>, z: Zone, run: ZoneRun, z': Zone,
                 l: RRKey)
    requires Runs(s, desired, policy, kept, z, run, z') && !Touched(s.owner, run.changes, l)
    ensures At(z', l) == At(z, l)
  {
    var existing := ExistingIn(s.owner, run.second);
    DecoratedTouches(s.owner, run.changes, existing, l);
    if !run.changes.Empty() {
      MessageFrame(z, Decorated(s.owner, run.changes, existing), l);
    }
  }

  // ---- the owned records as a plain map ------------------------------------------------

  lemma RunIsAfterRun(s: Scope, desired: map<Key, Endpoint>, policy: string, kept: set<Key>, z: Zone, run: ZoneRun,
                      z': Zone)
    requires Runs(s, desired, policy, kept, z, run, z')
    ensures z' == AfterRun(s, z, run.changes, ExistingIn(s.owner, run.second))
  {
    if run.changes.Empty() {
      EmptyWritesNothing(s, z, run.changes, ExistingIn(s.owner, run.second));
    }
  }

  /** A claim is kept unless the key is deleted. */
  lemma ClaimKept(s: Scope, desired: map<Key, Endpoint>, z: Zone, ch: Changes, existing: set<string>, k: Key)
    requires Publishable(s, desired) && Clean(s, desired, z) && Writes(desired, z, ch) && OwnNames(s.owner, z, existing)
    requires ClaimedBy(s.owner, z, KeyText(k)) && !Has(ch.delete, k)
    ensures ClaimedBy(s.owner, AfterRun(s, z, ch, existing), KeyText(k))
  {
    var r, z' := s.owner, AfterRun(s, z, ch, existing);
    var name :| ClaimsAt(r, z, name, KeyText(k));
    MarkerLands(s, desired, z, ch, existing, name);
    forall e | e in ch.delete ensures name != TxtName(r, e.Key()) {
      RealKeyOfTxtName(r, e.Key());
      KeyTextInjective(k, e.Key());
    }
    assert MarkerSet(z', name) == MarkerSet(z, name);
    assert ClaimsAt(r, z', name, KeyText(k));
  }

  /** A desired record that needs no writing, or that nothing opposes; no condition on other keys. */
  ghost predicate Placeable(desired: map<Key, Endpoint>, z: Zone, k: Key) {
    k in desired ==> Settled(z, desired[k]) || !Clash(z, ZoneKey(k))
  }

  /** From a clean zone, a run changes the map from owned keys to RRsets at every placeable key as a
      plain map update would: creates added, updates replaced, deletes removed. */
  lemma RunRefinesMapUpdate(s: Scope, desired: map<Key, Endpoint>, policy: string, kept: set<Key>, z: Zone,
                            run: ZoneRun, z': Zone, k: Key)
    requires Publishable(s, desired) && Clean(s, desired, z) && Placeable(desired, z, k)
    requires Runs(s, desired, policy, kept, z, run, z') && k.rtype != TXT
    ensures Owned(s.owner, z', k) <==>
      Has(run.changes.create, k) || (Owned(s.owner, z, k) && !Has(run.changes.delete, k))
    ensures Owned(s.owner, z', k) ==>
      At(z', ZoneKey(k)) ==
      if Has(run.changes.create, k) || Has(run.changes.update, k) then Inserted(map[], desired[k])
      else At(z, ZoneKey(k))
  {
    var ch, existing := run.changes, ExistingIn(s.owner, run.second);
    RunIsAfterRun(s, desired, policy, kept, z, run, z');
    RunWrites(s, desired, z, run.first, policy, kept, ch);
    ExistingAreOwn(s.owner, z, run.second);
    if k in desired {
      DesiredLands(s, desired, z, ch, existing, k);
      RefinesAtDesired(s, desired, z, ch, existing, k);
    } else {
      RefinesAtOthers(s, desired, z, ch, existing, k);
    }
  }

  lemma RefinesAtOthers(s: Scope, desired: map<Key, Endpoint>, z: Zone, ch: Changes, existing: set<string>, k: Key)
    requires Publishable(s, desired) && Clean(s, desired, z) && Writes(desired, z, ch) && OwnNames(s.owner, z, existing)
    requires k !in desired && k.rtype != TXT
    ensures !Has(ch.create, k) && !Has(ch.update, k)
    ensures Owned(s.owner, AfterRun(s, z, ch, existing), k) <==> Owned(s.owner, z, k) && !Has(ch.delete, k)
    ensures !Has(ch.delete, k) ==> At(AfterRun(s, z, ch, existing), ZoneKey(k)) == At(z, ZoneKey(k))
  {
    var z' := AfterRun(s, z, ch, existing);
    OthersLand(s, desired, z, ch, existing, k);
    if Owned(s.owner, z, k) && !Has(ch.delete, k) {
      ClaimKept(s, desired, z, ch, existing, k);
    }
    if ClaimedBy(s.owner, z', KeyText(k)) {
      MarkersLand(s, desired, z, ch, existing);
      NoNewClaims(s, desired, z, z', k);
    }
  }

  lemma RefinesAtDesired(s: Scope, desired: map<Key, Endpoint>, z: Zone, ch: Changes, existing: set<string>, k: Key)
    requires Publishable(s, desired) && Clean(s, desired, z) && Placeable(desired, z, k)
    requires Writes(desired, z, ch) && OwnNames(s.owner, z, existing)
    requires k in desired && At(AfterRun(s, z, ch, existing), ZoneKey(k)) == Landed(z, desired[k])
    ensures Owned(s.owner, AfterRun(s, z, ch, existing), k)
    ensures Has(ch.create, k) <==> At(z, ZoneKey(k)) == map[]
    ensures Has(ch.update, k) <==> At(z, ZoneKey(k)) != map[] && !Settled(z, desired[k])
    ensures !Has(ch.delete, k) && (At(z, ZoneKey(k)) != map[] ==> Owned(s.owner, z, k))
  {
    var e, z' := desired[k], AfterRun(s, z, ch, existing);
    assert e.Key() == k && ZoneKey(k).name == k.name;
    assert Has(ch.create, k) <==> e in ch.create;
    assert Has(ch.update, k) <==> e in ch.update;
    MarkersLand(s, desired, z, ch, existing);
    ClaimedAfter(s, desired, z, z', k);
    if !Settled(z, e) {
      InsertedSettles(z', e);
    }
  }

  /** The other half: at a desired key that needs writing and is opposed, nothing is owned after the
      run, because creates and insertions come before the deletes that clear the way. */
  lemma OpposedKeyIsEmptyAfter(s: Scope, desired: map<Key, Endpoint>, policy: string, kept: set<Key>, z: Zone,
                               run: ZoneRun, z': Zone, k: Key)
    requires Publishable(s, desired) && Clean(s, desired, z) && !Placeable(desired, z, k)
    requires Runs(s, desired, policy, kept, z, run, z')
    ensures At(z', ZoneKey(k)) == map[] && !Owned(s.owner, z', k)
    ensures Has(run.changes.create, k) || Has(run.changes.update, k)
  {
    var ch, existing := run.changes, ExistingIn(s.owner, run.second);
    RunIsAfterRun(s, desired, policy, kept, z, run, z');
    RunWrites(s, desired, z, run.first, policy, kept, ch);
    DesiredLands(s, desired, z, ch, existing, k);
    assert desired[k].Key() == k;
    assert desired[k] in ch.create || desired[k] in ch.update;
  }

  // ---- records nobody claims ---------------------------------------------------------------

  /** A record without an own marker whose key is not desired is untouched and stays foreign:
      in any zone, under any policy. */
  lemma ForeignUntouched(s: Scope, desired: map<Key, Endpoint>, policy: string, kept: set<Key>, z: Zone, run: ZoneRun,
                         z': Zone, k: Key)
    requires Runs(s, desired, policy, kept, z, run, z')
    requires Keyed(desired) && forall l :: l in desired ==> l.rtype != TXT
    requires k.rtype != TXT && k !in desired && !ClaimedBy(s.owner, z, KeyText(k))
    ensures At(z', ZoneKey(k)) == At(z, ZoneKey(k)) && !ClaimedBy(s.owner, z', KeyText(k))
  {
    ForeignUnnamed(s, desired, policy, kept, z, run, z', k);
    RunFrame(s, desired, policy, kept, z, run, z', ZoneKey(k));
    forall name ensures !ClaimsAt(s.owner, z', name, KeyText(k)) {
      NoClaimOnOthers(s, desired, policy, kept, z, run, z', name, k);
    }
  }

  lemma ForeignUnnamed(s: Scope, desired: map<Key, Endpoint>, policy: string, kept: set<Key>, z: Zone, run: ZoneRun,
                       z': Zone, k: Key)
    requires Runs(s, desired, policy, kept, z, run, z')
    requires Keyed(desired) && forall l :: l in desired ==> l.rtype != TXT
    requires k !in desired && !ClaimedBy(s.owner, z, KeyText(k))
    ensures forall e :: InChanges(run.changes, e) ==> e.Key() != k && e.rtype != TXT
  {
    PlanIsDrawn(s, desired, z, run.first, policy, kept, run.changes);
    UnclaimedNotCurrent(s, z, run.first, k);
  }

  lemma ReadClaim(r: Owner, z: Zone, m: map<Key, Endpoint>, t: Key, text: string)
    requires ReadsZone(z, m) && Claims(r, m, t, text)
    ensures ClaimsAt(r, z, t.name, text)
  {
    assert t == RecordKey(TXT, t.name);
    assert m[t].targets[0] in m[t].targets;
    assert m[t].targets[0] in MarkerSet(z, t.name);
  }

  lemma UnclaimedNotCurrent(s: Scope, z: Zone, m: map<Key, Endpoint>, k: Key)
    requires ReadsZone(z, m) && !ClaimedBy(s.owner, z, KeyText(k))
    ensures k !in Current(s, m)
  {
    if k in Current(s, m) {
      var t :| Claims(s.owner, m, t, KeyText(k));
      ReadClaim(s.owner, z, m, t, KeyText(k));
    }
  }

  /** A name that stands for `k` is no changed record's place, nor the marker place of another key. */
  lemma StandsApart(r: Owner, name: string, k: Key, e: Endpoint)
    requires RealKey(r, name) == Some(KeyText(k)) && e.rtype != TXT && (e.Key() != k || name != TxtName(r, k))
    ensures ZoneKey(RecordKey(TXT, name)) != ZoneKey(e.Key())
      && ZoneKey(RecordKey(TXT, name)) != ZoneKey(MarkerKey(r, e.Key()))
  {
    if name == TxtName(r, e.Key()) {
      RealKeyOfTxtName(r, e.Key());
      KeyTextInjective(k, e.Key());
    }
  }

  lemma StandingUntouched(r: Owner, ch: Changes, name: string, k: Key)
    requires RealKey(r, name) == Some(KeyText(k))
    requires forall e :: InChanges(ch, e) ==> e.rtype != TXT && (e.Key() != k || name != TxtName(r, k))
    ensures !Touched(r, ch, ZoneKey(RecordKey(TXT, name)))
  {
    forall e | InChanges(ch, e) ensures
      && ZoneKey(RecordKey(TXT, name)) != ZoneKey(e.Key())
      && ZoneKey(RecordKey(TXT, name)) != ZoneKey(MarkerKey(r, e.Key()))
    {
      StandsApart(r, name, k, e);
    }
  }

  lemma NoClaimOnOthers(s: Scope, desired: map<Key, Endpoint>, policy: string, kept: set<Key>, z: Zone, run: ZoneRun,
                        z': Zone, name: string, k: Key)
    requires Runs(s, desired, policy, kept, z, run, z') && !ClaimsAt(s.owner, z, name, KeyText(k))
    requires forall e :: InChanges(run.changes, e) ==> e.rtype != TXT && (e.Key() != k || name != TxtName(s.owner, k))
    ensures !ClaimsAt(s.owner, z', name, KeyText(k))
  {
    if RealKey(s.owner, name) == Some(KeyText(k)) {
      StandingUntouched(s.owner, run.changes, name, k);
      RunFrame(s, desired, policy, kept, z, run, z', ZoneKey(RecordKey(TXT, name)));
    }
  }

  /** No other name than the marker name of `k` comes to claim `k`. */
  lemma NoClaimElsewhere(s: Scope, desired: map<Key, Endpoint>, policy: string, kept: set<Key>, z: Zone, run: ZoneRun,
                         z': Zone, name: string, k: Key)
    requires Runs(s, desired, policy, kept, z, run, z') && NoMarkers(run.changes)
    requires name != TxtName(s.owner, k) && !ClaimsAt(s.owner, z, name, KeyText(k))
    ensures !ClaimsAt(s.owner, z', name, KeyText(k))
  {
    NoClaimOnOthers(s, desired, policy, kept, z, run, z', name, k);
  }

  /** What a run does with an unclaimed record whose key it desires: the desired data is added, and the
      marker is added at the marker name, each unless opposing data keeps it out. */
  lemma ForeignDesired(s: Scope, desired: map<Key, Endpoint>, policy: string, kept: set<Key>, z: Zone, run: ZoneRun,
                       z': Zone, k: Key)
    requires Publishable(s, desired) && Runs(s, desired, policy, kept, z, run, z')
    requires k in desired && !ClaimedBy(s.owner, z, KeyText(k))
    ensures NoMarkers(run.changes)
    ensures At(z', ZoneKey(k)) == CreatedRRset(z, desired[k])
    ensures At(z', ZoneKey(MarkerKey(s.owner, k))) == CreatedRRset(z, Marker(s.owner, desired[k]))
  {
    var r, ch, existing := s.owner, run.changes, ExistingIn(s.owner, run.second);
    UnclaimedNotCurrent(s, z, run.first, k);
    PlanIsDrawn(s, desired, z, run.first, policy, kept, ch);
    assert k in Creates(desired, Current(s, run.first));
    assert desired[k] in ch.create && desired[k].Key() == k;
    UnclaimedHasNoMarker(r, z, run.second, k);
    RunIsAfterRun(s, desired, policy, kept, z, run, z');
    MarkersOf(r, ch.create, existing, false);
    DecoratedIsWritable(s, desired, ch, existing);
    ApplyEffect(z, Decorated(r, ch, existing));
  }

  lemma UnclaimedHasNoMarker(r: Owner, z: Zone, m: map<Key, Endpoint>, k: Key)
    requires ReadsZone(z, m) && k.name != "" && !ClaimedBy(r, z, KeyText(k))
    ensures TxtName(r, k) !in ExistingIn(r, m)
  {
    if TxtName(r, k) in ExistingIn(r, m) {
      var t :| t in m && t.rtype == TXT && Owns(r, m[t]) && t.name == TxtName(r, k);
      RealKeyOfTxtName(r, k);
      ReadClaim(r, z, m, t, KeyText(k));
    }
  }

  lemma MarkerClaimed(r: Owner, z: Zone, z': Zone, k: Key, e: Endpoint)
    requires k.name != "" && e.Key() == k && !ClaimedBy(r, z, KeyText(k))
    requires At(z', ZoneKey(MarkerKey(r, k))) == CreatedRRset(z, Marker(r, e))
    ensures ClaimsAt(r, z', TxtName(r, k), KeyText(k)) <==> !Clash(z, ZoneKey(MarkerKey(r, k)))
  {
    var name, l := TxtName(r, k), ZoneKey(MarkerKey(r, k));
    RealKeyOfTxtName(r, k);
    OwnsItsMarkers(r);
    assert !ClaimsAt(r, z, name, KeyText(k));
    if !Clash(z, l) {
      MarkerAdded(At(z, l), r, e);
      assert MarkerValue(r) in MarkerSet(z', name);
    } else {
      assert MarkerSet(z', name) == MarkerSet(z, name);
    }
  }

  lemma MarkerAdded(rs: RRset, r: Owner, e: Endpoint)
    ensures Inserted(rs, Marker(r, e)) == rs[MarkerValue(r) := DEFAULT_TTL]
  {
    var m := Marker(r, e);
    assert Inserted(rs, m, 0) == rs;
    assert Inserted(rs, m, 1) == rs[MarkerValue(r) := DEFAULT_TTL];
  }

  /** The documentation promises that records without an own marker are never changed. Exactly: such a
      record is changed when its key is desired and no opposing data protects it, and it counts as owned
      from then on exactly when its key is desired and no CNAME keeps the marker out. In any zone, under any policy. */
  lemma ForeignExact(s: Scope, desired: map<Key, Endpoint>, policy: string, kept: set<Key>, z: Zone, run: ZoneRun,
                     z': Zone, k: Key)
    requires Publishable(s, desired) && Runs(s, desired, policy, kept, z, run, z')
    requires k.rtype != TXT && !ClaimedBy(s.owner, z, KeyText(k))
    ensures At(z', ZoneKey(k)) ==
      if k in desired && !Clash(z, ZoneKey(k)) then Inserted(At(z, ZoneKey(k)), desired[k]) else At(z, ZoneKey(k))
    ensures ClaimedBy(s.owner, z', KeyText(k)) <==> k in desired && !Clash(z, ZoneKey(MarkerKey(s.owner, k)))
  {
    if k !in desired {
      ForeignUntouched(s, desired, policy, kept, z, run, z', k);
    } else {
      assert desired[k].Key() == k;
      ForeignDesired(s, desired, policy, kept, z, run, z', k);
      MarkerClaimed(s.owner, z, z', k, desired[k]);
      forall name | name != TxtName(s.owner, k) ensures !ClaimsAt(s.owner, z', name, KeyText(k)) {
        NoClaimElsewhere(s, desired, policy, kept, z, run, z', name, k);
      }
    }
  }

  /** A foreign address RRset that a run changes and takes over, with nothing else in the zone. */
  lemma ForeignChanged(s: Scope, e: Endpoint, rs: RRset, policy: string, kept: set<Key>, run: ZoneRun, z': Zone)
    requires Publishable(s, map[e.Key() := e]) && e.rtype == A
    requires Runs(s, map[e.Key() := e], policy, kept, map[ZoneKey(e.Key()) := rs], run, z')
    ensures At(z', ZoneKey(e.Key())) == Inserted(rs, e) && ClaimedBy(s.owner, z', KeyText(e.Key()))
  {
    var desired, k, z: Zone := map[e.Key() := e], e.Key(), map[ZoneKey(e.Key()) := rs];
    assert k in desired && TxtName(s.owner, k) != k.name;
    NotOpposed(z, k, TxtName(s.owner, k));
    ForeignExact(s, desired, policy, kept, z, run, z', k);
  }

  /** One foreign address beside one desired one: the run leaves both, and owns both. */
  lemma ForeignAddressJoined(s: Scope, e: Endpoint, theirs: string, ttl: nat, policy: string, kept: set<Key>,
                             run: ZoneRun, z': Zone)
    requires Publishable(s, map[e.Key() := e]) && e.rtype == A && |e.targets| == 1 && e.ttl == 0
    requires Runs(s, map[e.Key() := e], policy, kept, map[ZoneKey(e.Key()) := map[theirs := ttl]], run, z')
    ensures At(z', ZoneKey(e.Key())) == map[theirs := ttl, e.targets[0] := 300]
      && ClaimedBy(s.owner, z', KeyText(e.Key()))
  {
    ForeignChanged(s, e, map[theirs := ttl], policy, kept, run, z');
    OneTarget(map[theirs := ttl], e);
  }

  /** For one: a run that desires 192.0.2.1 finds 198.51.100.7. */
  lemma ForeignRecordChanged(s: Scope, e: Endpoint, policy: string, kept: set<Key>, run: ZoneRun, z': Zone)
    requires e == Endpoint("app", ["192.0.2.1"], A, 0, map[]) && Publishable(s, map[e.Key() := e])
    requires Runs(s, map[e.Key() := e], policy, kept, map[ZoneKey(e.Key()) := map["198.51.100.7" := 60]], run, z')
    ensures At(z', ZoneKey(e.Key())) == map["198.51.100.7" := 60, "192.0.2.1" := 300]
    ensures ClaimedBy(s.owner, z', KeyText(e.Key()))
  {
    ForeignAddressJoined(s, e, "198.51.100.7", 60, policy, kept, run, z');
  }

  lemma OneTarget(rs: RRset, e: Endpoint)
    requires |e.targets| == 1 && e.rtype == A
    ensures Inserted(rs, e) == rs[e.targets[0] := ZoneTtl(e.ttl)]
  {
    assert Inserted(rs, e, 0) == rs;
    assert Inserted(rs, e, 1) == rs[e.targets[0] := ZoneTtl(e.ttl)];
  }

  lemma NotOpposed(z: Zone, k: Key, name: string)
    requires k.rtype == A && z.Keys == {ZoneKey(k)} && k.name != name
    ensures !Clash(z, ZoneKey(k)) && !Clash(z, ZoneKey(RecordKey(TXT, name)))
    ensures forall r: Owner, text :: !ClaimedBy(r, z, text)
  {
    forall r: Owner, text, n ensures !ClaimsAt(r, z, n, text) {
      assert ZoneKey(RecordKey(TXT, n)) !in z;
    }
  }
}
