/** Records that carry no munpae heritage: whatever else their markers say, no instance takes them for its own,
    and no run touches them over either backend. */
module Heritage {
  import opened GoText
  import opened Endpoints
  import opened Planning
  import opened Registry
  import opened DnsZone
  import opened Rfc2136
  import opened Convergence
  import Refinement
  import CloudStore
  import Cloudflare
  import CloudRuns
  import CloudRepair

  /** A TXT value without the heritage text. */
  predicate Unmarked(v: string) {
    !Contains(v, "heritage=munpae")
  }

  /** The endpoint is a TXT reading under a name that stands for `k`. */
  predicate StandsFor(r: Owner, f: Endpoint, k: Key) {
    f.rtype == TXT && RealKey(r, f.name) == Some(KeyText(k))
  }

  /** The other half of the ownership test: a value of another owner, heritage or not. */
  predicate NamesOwner(r: Owner, v: string) {
    Contains(v, "munpae/owner=" + r.id)
  }

  lemma OwnsNeedsBoth(r: Owner, v: string)
    ensures OwnsValue(r, v) <==> !Unmarked(v) && NamesOwner(r, v)
  {
    assert OWNER_TAG == "munpae/owner=";
  }

  /** The first value of a TXT reading decides, and no other. */
  lemma FirstValueDecides(r: Owner, f: Endpoint)
    ensures Owns(r, f) <==> f.targets != [] && !Unmarked(f.targets[0]) && NamesOwner(r, f.targets[0])
  {
    if f.targets != [] { OwnsNeedsBoth(r, f.targets[0]); }
  }

  // ---- readings ------------------------------------------------------------------------------------

  /** A record none of whose markers has the heritage text is not among the owned records, and a marker name
      without it is not among the existing markers. */
  lemma UnmarkedIsNotOwned(r: Owner, all: seq<Endpoint>, e: Endpoint)
    requires forall f, v :: f in all && StandsFor(r, f, e.Key()) && v in f.targets ==> Unmarked(v)
    ensures e !in OwnedOf(r, all, all)
    ensures e.name != "" ==> TxtName(r, e.Key()) !in Existing(r, all)
  {
    OwnedOfListed(r, all, all);
    RealKeyOfTxtName(r, e.Key());
    forall f | f in all && StandsFor(r, f, e.Key()) ensures !Owns(r, f) {
      NotOwning(r, f);
    }
    Unowned(r, all, e.Key());
  }

  lemma NotOwning(r: Owner, f: Endpoint)
    requires forall v :: v in f.targets ==> Unmarked(v)
    ensures !Owns(r, f)
  {
    FirstValueDecides(r, f);
  }

  lemma Unowned(r: Owner, all: seq<Endpoint>, k: Key)
    requires forall f :: f in all && StandsFor(r, f, k) ==> !Owns(r, f)
    ensures !ClaimedIn(r, all, KeyText(k))
    ensures RealKey(r, TxtName(r, k)) == Some(KeyText(k)) ==> TxtName(r, k) !in Existing(r, all)
  {
    assert forall i :: 0 <= i < |all| && StandsFor(r, all[i], k) ==> !Owns(r, all[i]);
  }

  /** Among lower-case names without a slash only the record's own marker name matters. */
  lemma UnmarkedNameIsNotOwned(r: Owner, all: seq<Endpoint>, e: Endpoint)
    requires e.name != "" && forall f :: f in all && f.rtype == TXT ==> PlainName(f.name)
    requires forall f, v ::
      f in all && f.rtype == TXT && f.name == TxtName(r, e.Key()) && v in f.targets ==> Unmarked(v)
    ensures e !in OwnedOf(r, all, all) && TxtName(r, e.Key()) !in Existing(r, all)
  {
    forall f, v | f in all && StandsFor(r, f, e.Key()) && v in f.targets ensures Unmarked(v) {
      OnlyMarkersClaim(r, f.name, e.Key());
    }
    UnmarkedIsNotOwned(r, all, e);
  }

  // ---- runs against a zone ---------------------------------------------------------------------------

  ghost predicate UnmarkedAt(r: Owner, z: Zone, k: Key) {
    forall name, v :: RealKey(r, name) == Some(KeyText(k)) && v in MarkerSet(z, name) ==> Unmarked(v)
  }

  lemma UnmarkedIsUnclaimed(r: Owner, z: Zone, k: Key)
    requires UnmarkedAt(r, z, k)
    ensures !ClaimedBy(r, z, KeyText(k))
  {
    forall name ensures !ClaimsAt(r, z, name, KeyText(k)) {
      forall v | v in MarkerSet(z, name) && RealKey(r, name) == Some(KeyText(k)) ensures !OwnsValue(r, v) {
        OwnsNeedsBoth(r, v);
      }
    }
  }

  /** A run leaves such a record alone, and what sits at its marker name too, unless it desires the key. */
  lemma UnmarkedUntouched(s: Scope, desired: map<Key, Endpoint>, policy: string, kept: set<Key>, z: Zone, run: ZoneRun,
                          z': Zone, k: Key)
    requires Runs(s, desired, policy, kept, z, run, z')
    requires Keyed(desired) && forall l :: l in desired ==> l.rtype != TXT
    requires k.rtype != TXT && k !in desired && UnmarkedAt(s.owner, z, k)
    ensures At(z', ZoneKey(k)) == At(z, ZoneKey(k))
    ensures MarkerSet(z', TxtName(s.owner, k)) == MarkerSet(z, TxtName(s.owner, k))
  {
    UnmarkedIsUnclaimed(s.owner, z, k);
    Refinement.ForeignUntouched(s, desired, policy, kept, z, run, z', k);
    Refinement.ForeignUnnamed(s, desired, policy, kept, z, run, z', k);
    MarkerUntouched(s, desired, policy, kept, z, run, z', k);
  }

  lemma MarkerUntouched(s: Scope, desired: map<Key, Endpoint>, policy: string, kept: set<Key>, z: Zone, run: ZoneRun,
                        z': Zone, k: Key)
    requires Runs(s, desired, policy, kept, z, run, z')
    requires Keyed(desired) && forall l :: l in desired ==> l.rtype != TXT
    requires forall e :: InChanges(run.changes, e) ==> e.Key() != k
    ensures MarkerSet(z', TxtName(s.owner, k)) == MarkerSet(z, TxtName(s.owner, k))
  {
    PlanIsDrawn(s, desired, z, run.first, policy, kept, run.changes);
    NotTouched(s.owner, run.changes, k);
    Refinement.RunFrame(s, desired, policy, kept, z, run, z', ZoneKey(MarkerKey(s.owner, k)));
  }

  lemma NotTouched(r: Owner, ch: Changes, k: Key)
    requires NoMarkers(ch) && forall e :: InChanges(ch, e) ==> e.Key() != k
    ensures !Refinement.Touched(r, ch, ZoneKey(MarkerKey(r, k)))
  {
    forall e | InChanges(ch, e)
      ensures ZoneKey(e.Key()) != ZoneKey(MarkerKey(r, k))
      ensures ZoneKey(MarkerKey(r, e.Key())) != ZoneKey(MarkerKey(r, k))
    {
      TxtNameInjective(r, e.Key(), k);
    }
  }

  // ---- runs against Cloudflare, wherever they stop ----------------------------------------------------------

  ghost predicate CloudUnmarkedAt(r: Owner, c: CloudStore.Cloud, k: Key) {
    forall name, id :: RealKey(r, name) == Some(KeyText(k)) && id in CloudRuns.TxtAt(c, name) ==>
      Unmarked(Cloudflare.ContentOf(CloudRuns.TxtAt(c, name)[id]))
  }

  lemma CloudUnmarkedIsUnclaimed(r: Owner, c: CloudStore.Cloud, k: Key)
    requires CloudUnmarkedAt(r, c, k)
    ensures !CloudRuns.ClaimedTxt(r, c, KeyText(k))
  {
    forall name ensures !CloudRuns.ClaimsTxt(r, c, name, KeyText(k)) {
      forall id | id in CloudRuns.TxtAt(c, name) && RealKey(r, name) == Some(KeyText(k))
        ensures !CloudRuns.OwnRecord(r, CloudRuns.TxtAt(c, name)[id])
      {
        OwnsNeedsBoth(r, Cloudflare.ContentOf(CloudRuns.TxtAt(c, name)[id]));
      }
    }
  }

  lemma CloudUnmarkedUntouched(w: CloudRuns.Goal, policy: string, kept: set<Key>, c: CloudStore.Cloud,
                               run: CloudRuns.CloudRun, j: nat, c': CloudStore.Cloud, k: Key)
    requires CloudRuns.RunsUpTo(w, policy, kept, c, run, j, c') && c.Valid()
    requires Keyed(w.desired) && forall l :: l in w.desired ==> l.rtype != TXT
    requires k.rtype != TXT && k !in w.desired && CloudUnmarkedAt(w.s.owner, c, k)
    ensures CloudStore.Sub(c', ZoneKey(k)) == CloudStore.Sub(c, ZoneKey(k))
    ensures CloudRuns.TxtAt(c', TxtName(w.s.owner, k)) == CloudRuns.TxtAt(c, TxtName(w.s.owner, k))
  {
    var r := w.s.owner;
    CloudUnmarkedIsUnclaimed(r, c, k);
    if k in Current(w.s, run.first) { CloudRuns.ClaimRead(r, c, run.first, KeyText(k)); }
    CloudRuns.CurrentShape(w.s, c, run.first);
    KeepingIsDrawn(w.desired, Current(w.s, run.first), policy, kept, run.changes);
    forall e | InChanges(run.changes, e) ensures e.Key() != k {}
    CloudRepair.CloudForeignUntouched(w, policy, kept, c, run, j, c', k);
    NotTouched(r, run.changes, k);
    CloudRepair.CloudRunFrame(w, policy, kept, c, run, j, c', ZoneKey(MarkerKey(r, k)));
  }

  // ---- a marker of another program -----------------------------------------------------------------------------

  const FOREIGN: string := "heritage=external-dns,munpae/owner=munpae"

  /** It names the owner, and still has not the heritage. */
  lemma ForeignHasNoHeritage(prefix: string)
    ensures Unmarked(FOREIGN) && NamesOwner(Owner("munpae", prefix), FOREIGN)
  {
    forall i ensures !OccursAt(FOREIGN, "heritage=munpae", i) {
      NotAt(i);
    }
    assert FOREIGN[22..22 + 19] == "munpae/owner=munpae";
    assert OccursAt(FOREIGN, "munpae/owner=" + "munpae", 22);
  }

  lemma NotAt(i: int)
    ensures !OccursAt(FOREIGN, "heritage=munpae", i)
  {
    if 0 <= i <= |FOREIGN| - 15 {
      var sub := FOREIGN[i..i + 15];
      assert sub[0] == FOREIGN[i] && sub[9] == FOREIGN[i + 9];
      assert FOREIGN[i] != 'h' || FOREIGN[i + 9] != 'm';
      assert "heritage=munpae"[0] == 'h' && "heritage=munpae"[9] == 'm';
    }
  }

  /** For one: a sync run of the default instance that no longer desires `app` leaves an address record of that
      name alone that another program has marked. */
  lemma ForeignMarkerSpares(filter: seq<string>, desired: map<Key, Endpoint>, rs: RRset, ttl: nat, run: ZoneRun,
                            z': Zone)
    requires var s := Scope(Owner("munpae", "munpae."), filter);
      Runs(s, desired, "sync", {}, ForeignZone(rs, ttl), run, z')
    requires Keyed(desired) && (forall l :: l in desired ==> l.rtype != TXT) && RecordKey(A, "app") !in desired
    ensures At(z', RRKey("app", Known(A))) == rs
  {
    var s, k := Scope(Owner("munpae", "munpae."), filter), RecordKey(A, "app");
    ForeignHasNoHeritage("munpae.");
    OnlyForeign(rs, ttl);
    UnmarkedUntouched(s, desired, "sync", {}, ForeignZone(rs, ttl), run, z', k);
  }

  lemma OnlyForeign(rs: RRset, ttl: nat)
    ensures forall name, v :: v in MarkerSet(ForeignZone(rs, ttl), name) ==> v == FOREIGN
  {
    forall name, v | v in MarkerSet(ForeignZone(rs, ttl), name) ensures v == FOREIGN {
      assert ZoneKey(RecordKey(TXT, name)) == RRKey(name, Known(TXT));
    }
  }

  function ForeignZone(rs: RRset, ttl: nat): Zone {
    map[RRKey("app", Known(A)) := rs, RRKey("munpae.a-app", Known(TXT)) := map[FOREIGN := ttl]]
  }
}
