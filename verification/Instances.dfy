/** Several reconcilers sharing one zone and one marker prefix. Each one reads, plans,
    looks for existing markers and applies in separate steps, so every step may work
    from a stale reading. */
module Instances {
  import opened GoText
  import opened Endpoints
  import opened Planning
  import opened Registry
  import opened DnsZone
  import opened Rfc2136
  import opened ZoneChoice
  import opened Convergence

  /** Where one instance is inside its run. */
  datatype Phase = Idle | Planned(changes: Changes) | Checked(out: Changes)

  /** The fixed part of an instance: its scope, its policy, and the keys it may ever desire or own. */
  datatype Instance = Instance(scope: Scope, policy: string, universe: iset<Key>)

  datatype Shared = Shared(zone: Zone, phases: seq<Phase>)

  datatype Action =
    | Read(reading: map<Key, Endpoint>, desired: map<Key, Endpoint>, kept: set<Key>, changes: Changes)
    | Check(reading: map<Key, Endpoint>)
    | Apply
    | Abort

  /** One step of instance `i`; which records it desires may change from run to run. */
  ghost predicate Steps(insts: seq<Instance>, a: Shared, i: nat, act: Action, b: Shared) {
    && |a.phases| == |b.phases| == |insts| && i < |insts|
    && (forall j :: 0 <= j < |insts| && j != i ==> b.phases[j] == a.phases[j])
    && match act
       case Read(m, desired, kept, ch) =>
         && a.phases[i].Idle? && ReadsZone(a.zone, m)
         && Keyed(desired) && (forall k :: k in desired ==> k in insts[i].universe && k.rtype != TXT)
         && IsPlanKeeping(desired, Current(insts[i].scope, m), insts[i].policy, kept, ch)
         && b.phases[i] == Planned(ch) && b.zone == a.zone
       case Check(m) =>
         && a.phases[i].Planned? && ReadsZone(a.zone, m)
         && b.phases[i] ==
              Checked(Decorated(insts[i].scope.owner, a.phases[i].changes, ExistingIn(insts[i].scope.owner, m)))
         && b.zone == a.zone
       case Apply =>
         && a.phases[i].Checked?
         && b.phases[i] == Idle && b.zone == Process(a.zone, Message(a.phases[i].out))
       case Abort =>
         && b.phases[i] == Idle && b.zone == a.zone
  }

  /** Shared prefix, disjoint universes, and owner ids of which none claims another's markers. */
  ghost predicate Separate(insts: seq<Instance>) {
    && (forall i, j ::
         0 <= i < |insts| && 0 <= j < |insts| ==> insts[i].scope.owner.prefix == insts[j].scope.owner.prefix)
    && (forall i, j :: 0 <= i < |insts| && 0 <= j < |insts| && i != j ==>
          insts[i].universe !! insts[j].universe
          && !OwnsValue(insts[i].scope.owner, MarkerValue(insts[j].scope.owner)))
  }

  /** Each instance's markers stand for keys of its own universe only. */
  ghost predicate ClaimsWithin(inst: Instance, z: Zone) {
    forall k: Key, name :: ClaimsAt(inst.scope.owner, z, name, KeyText(k)) ==> k in inst.universe
  }

  ghost predicate OwnChange(inst: Instance, e: Endpoint) {
    e.Key() in inst.universe && e.rtype != TXT
  }

  ghost predicate OwnWrite(inst: Instance, e: Endpoint) {
    || OwnChange(inst, e)
    || exists k ::
         k in inst.universe && e.Key() == MarkerKey(inst.scope.owner, k) && e.targets == [MarkerValue(inst.scope.owner)]
  }

  ghost predicate PhaseWithin(inst: Instance, p: Phase) {
    match p
    case Idle => true
    case Planned(ch) => forall e :: InChanges(ch, e) ==> OwnChange(inst, e)
    case Checked(out) => forall e :: InChanges(out, e) ==> OwnWrite(inst, e)
  }

  ghost predicate Inv(insts: seq<Instance>, a: Shared) {
    && |a.phases| == |insts|
    && (forall i :: 0 <= i < |insts| ==> ClaimsWithin(insts[i], a.zone) && PhaseWithin(insts[i], a.phases[i]))
  }

  /** What instance `j` owns, records and markers, is the same in both zones. */
  ghost predicate Unharmed(inst: Instance, z: Zone, z': Zone) {
    && (forall k: Key ::
         ClaimedBy(inst.scope.owner, z, KeyText(k)) && k.rtype != TXT ==> At(z', ZoneKey(k)) == At(z, ZoneKey(k)))
    && (forall k: Key, name ::
         ClaimsAt(inst.scope.owner, z, name, KeyText(k)) ==> MarkerSet(z', name) == MarkerSet(z, name))
  }

  lemma CurrentWithin(inst: Instance, z: Zone, m: map<Key, Endpoint>, k: Key)
    requires ClaimsWithin(inst, z) && ReadsZone(z, m) && k in Current(inst.scope, m)
    ensures k in inst.universe && k.rtype != TXT && Current(inst.scope, m)[k].Key() == k
  {
    var r := inst.scope.owner;
    var t :| Claims(r, m, t, KeyText(k));
    assert t == RecordKey(TXT, t.name) && m[t].targets[0] in m[t].targets;
    assert m[t].targets[0] in MarkerSet(z, t.name);
    assert ClaimsAt(r, z, t.name, KeyText(k));
  }

  lemma ReadStaysWithin(inst: Instance, z: Zone, m: map<Key, Endpoint>, desired: map<Key, Endpoint>, kept: set<Key>,
                        ch: Changes)
    requires ClaimsWithin(inst, z) && ReadsZone(z, m) && Keyed(desired)
    requires forall k :: k in desired ==> k in inst.universe && k.rtype != TXT
    requires IsPlanKeeping(desired, Current(inst.scope, m), inst.policy, kept, ch)
    ensures forall e :: InChanges(ch, e) ==> OwnChange(inst, e)
  {
    forall e | e in ch.delete ensures OwnChange(inst, e) {
      assert e.Key() in Deletes(desired, Current(inst.scope, m), inst.policy);
      CurrentWithin(inst, z, m, e.Key());
    }
    forall e | e in ch.create || e in ch.update ensures OwnChange(inst, e) {
      assert e.Key() in desired && desired[e.Key()] == e;
    }
  }

  lemma CheckStaysWithin(inst: Instance, ch: Changes, existing: set<string>)
    requires forall e :: InChanges(ch, e) ==> OwnChange(inst, e)
    ensures forall e :: InChanges(Decorated(inst.scope.owner, ch, existing), e) ==> OwnWrite(inst, e)
  {
    MarkersWithin(inst, ch.create, existing, false);
    MarkersWithin(inst, ch.delete, existing, true);
    assert forall e :: OwnChange(inst, e) ==> OwnWrite(inst, e);
  }

  lemma MarkersWithin(inst: Instance, es: seq<Endpoint>, existing: set<string>, present: bool)
    requires forall e :: e in es ==> OwnChange(inst, e)
    ensures forall m :: m in Markers(inst.scope.owner, es, existing, present) ==> OwnWrite(inst, m)
  {
    var r := inst.scope.owner;
    MarkersOf(r, es, existing, present);
    forall m | m in Markers(r, es, existing, present) ensures OwnWrite(inst, m) {
      var e :| e in es && m == Marker(r, e) && (TxtName(r, e.Key()) in existing) == present;
      assert e.Key() in inst.universe && m.Key() == MarkerKey(r, e.Key());
    }
  }

  lemma MarkerClaimsOnce(r: Owner, k: Key, l: Key)
    requires RealKey(r, TxtName(r, k)) == Some(KeyText(l))
    ensures k == l
  {
    RealKeyOfTxtName(r, k);
    KeyTextInjective(k, l);
  }

  /** An apply step leaves alone what every other instance owns, and gives nobody a claim outside its universe. */
  lemma ApplyHarmsNoOne(insts: seq<Instance>, z: Zone, out: Changes, i: nat, j: nat)
    requires Separate(insts) && i < |insts| && j < |insts| && i != j
    requires ClaimsWithin(insts[j], z) && forall e :: InChanges(out, e) ==> OwnWrite(insts[i], e)
    ensures Unharmed(insts[j], z, Process(z, Message(out)))
    ensures ClaimsWithin(insts[j], Process(z, Message(out)))
  {
    var z', ri, rj := Process(z, Message(out)), insts[i].scope.owner, insts[j].scope.owner;
    forall k: Key | ClaimedBy(rj, z, KeyText(k)) && k.rtype != TXT ensures At(z', ZoneKey(k)) == At(z, ZoneKey(k)) {
      forall e | InChanges(out, e) ensures ZoneKey(e.Key()) != ZoneKey(k) {
        assert OwnWrite(insts[i], e);
      }
      MessageFrame(z, out, ZoneKey(k));
    }
    forall k: Key, name | ClaimsAt(rj, z, name, KeyText(k)) ensures MarkerSet(z', name) == MarkerSet(z, name) {
      MarkersApart(insts, out, i, j, name, k);
      MessageFrame(z, out, ZoneKey(RecordKey(TXT, name)));
    }
    forall k: Key, name | ClaimsAt(rj, z', name, KeyText(k)) ensures k in insts[j].universe {
      NoClaimGiven(insts, z, out, i, j, name, k);
    }
  }

  lemma MarkersApart(insts: seq<Instance>, out: Changes, i: nat, j: nat, name: string, k: Key)
    requires Separate(insts) && i < |insts| && j < |insts| && i != j
    requires forall e :: InChanges(out, e) ==> OwnWrite(insts[i], e)
    requires k in insts[j].universe && RealKey(insts[j].scope.owner, name) == Some(KeyText(k))
    ensures forall e :: InChanges(out, e) ==> ZoneKey(e.Key()) != ZoneKey(RecordKey(TXT, name))
  {
    var ri, rj := insts[i].scope.owner, insts[j].scope.owner;
    forall e | InChanges(out, e) ensures ZoneKey(e.Key()) != ZoneKey(RecordKey(TXT, name)) {
      assert OwnWrite(insts[i], e);
      if e.Key() == RecordKey(TXT, name) {
        var l :| l in insts[i].universe && e.Key() == MarkerKey(ri, l);
        assert TxtName(ri, l) == TxtName(rj, l) == name;
        MarkerClaimsOnce(rj, l, k);
      }
    }
  }

  lemma NoClaimGiven(insts: seq<Instance>, z: Zone, out: Changes, i: nat, j: nat, name: string, k: Key)
    requires Separate(insts) && i < |insts| && j < |insts| && i != j
    requires ClaimsWithin(insts[j], z) && forall e :: InChanges(out, e) ==> OwnWrite(insts[i], e)
    requires ClaimsAt(insts[j].scope.owner, Process(z, Message(out)), name, KeyText(k))
    ensures k in insts[j].universe
  {
    var z', rj, l := Process(z, Message(out)), insts[j].scope.owner, ZoneKey(RecordKey(TXT, name));
    var v :| v in MarkerSet(z', name) && OwnsValue(rj, v);
    if v !in MarkerSet(z, name) {
      forall e | InChanges(out, e) && ZoneKey(e.Key()) == l ensures v !in e.targets {
        assert OwnWrite(insts[i], e);
      }
      MessageData(z, out, l, v);
    } else {
      assert ClaimsAt(rj, z, name, KeyText(k));
    }
  }

  /** The instance itself only gains claims on its own universe. */
  lemma ApplyKeepsOwnClaims(inst: Instance, z: Zone, out: Changes)
    requires ClaimsWithin(inst, z) && forall e :: InChanges(out, e) ==> OwnWrite(inst, e)
    ensures ClaimsWithin(inst, Process(z, Message(out)))
  {
    var z', r := Process(z, Message(out)), inst.scope.owner;
    forall k: Key, name | ClaimsAt(r, z', name, KeyText(k)) ensures k in inst.universe {
      var v :| v in MarkerSet(z', name) && OwnsValue(r, v);
      if v in MarkerSet(z, name) {
        assert ClaimsAt(r, z, name, KeyText(k));
      } else if e :| InChanges(out, e) && ZoneKey(e.Key()) == ZoneKey(RecordKey(TXT, name)) && v in e.targets {
        assert OwnWrite(inst, e);
        var l :| l in inst.universe && e.Key() == MarkerKey(r, l);
        MarkerClaimsOnce(r, l, k);
      } else {
        MessageData(z, out, ZoneKey(RecordKey(TXT, name)), v);
      }
    }
  }

  /** Every step keeps the invariant and leaves alone what every other instance owns. */
  lemma StepIsSafe(insts: seq<Instance>, a: Shared, i: nat, act: Action, b: Shared)
    requires Separate(insts) && Inv(insts, a) && Steps(insts, a, i, act, b)
    ensures Inv(insts, b)
    ensures forall j :: 0 <= j < |insts| && j != i ==> Unharmed(insts[j], a.zone, b.zone)
  {
    match act
    case Read(m, desired, kept, ch) =>
      ReadStaysWithin(insts[i], a.zone, m, desired, kept, ch);
    case Check(m) =>
      assert PhaseWithin(insts[i], a.phases[i]);
      CheckStaysWithin(insts[i], a.phases[i].changes, ExistingIn(insts[i].scope.owner, m));
    case Apply =>
      var out := a.phases[i].out;
      assert PhaseWithin(insts[i], a.phases[i]);
      ApplyKeepsOwnClaims(insts[i], a.zone, out);
      forall j | 0 <= j < |insts| && j != i ensures
        Unharmed(insts[j], a.zone, b.zone) && ClaimsWithin(insts[j], b.zone) && PhaseWithin(insts[j], b.phases[j])
      {
        assert ClaimsWithin(insts[j], a.zone) && PhaseWithin(insts[j], a.phases[j]);
        ApplyHarmsNoOne(insts, a.zone, out, i, j);
      }
    case Abort =>
  }

  /** A run of the whole system: any interleaving of steps. */
  ghost predicate Interleaving(insts: seq<Instance>, states: seq<Shared>, acts: seq<(nat, Action)>) {
    && |states| == |acts| + 1
    && forall t :: 0 <= t < |acts| ==> Steps(insts, states[t], acts[t].0, acts[t].1, states[t + 1])
  }

  ghost predicate Begins(insts: seq<Instance>, a: Shared) {
    && |a.phases| == |insts|
    && forall i :: 0 <= i < |insts| ==> a.phases[i] == Idle && ClaimsWithin(insts[i], a.zone)
  }

  lemma {:induction false} InvHolds(insts: seq<Instance>, states: seq<Shared>, acts: seq<(nat, Action)>, t: nat)
    requires Separate(insts) && Interleaving(insts, states, acts) && Begins(insts, states[0]) && t < |states|
    ensures Inv(insts, states[t])
  {
    if t > 0 {
      InvHolds(insts, states, acts, t - 1);
      StepIsSafe(insts, states[t - 1], acts[t - 1].0, acts[t - 1].1, states[t]);
    }
  }

  /** In every interleaving, at every step, nobody touches what another instance owns. */
  lemma NoInstanceHarmsAnother(insts: seq<Instance>, states: seq<Shared>, acts: seq<(nat, Action)>, t: nat, j: nat)
    requires Separate(insts) && Interleaving(insts, states, acts) && Begins(insts, states[0])
    requires t < |acts| && j < |insts| && j != acts[t].0
    ensures Unharmed(insts[j], states[t].zone, states[t + 1].zone)
  {
    InvHolds(insts, states, acts, t);
    StepIsSafe(insts, states[t], acts[t].0, acts[t].1, states[t + 1]);
  }

  /** The condition on owner ids is needed: an instance whose id claims another's markers, and that
      desires nothing itself, deletes the other's record in its next `sync` run. */
  lemma ClaimingIdDeletes(s: Scope, other: Owner, k: Key, rs: RRset, z: Zone, run: ZoneRun, z': Zone)
    requires other.prefix == s.owner.prefix && OwnsValue(s.owner, MarkerValue(other))
    requires k.rtype != TXT && k.name != "" && InDomain(s.filter, k.name) && rs != map[]
    requires z == map[ZoneKey(k) := rs, ZoneKey(MarkerKey(other, k)) := map[MarkerValue(other) := DEFAULT_TTL]]
    requires Runs(s, map[], "sync", {}, z, run, z')
    ensures ClaimedBy(other, z, KeyText(k)) && At(z', ZoneKey(k)) == map[]
  {
    var name := TxtName(other, k);
    ClaimsOf(other, other, z, k);
    ClaimsOf(s.owner, other, z, k);
    RunLands(s, map[], z, run, z');
  }

  lemma ClaimsOf(r: Owner, other: Owner, z: Zone, k: Key)
    requires r.prefix == other.prefix && (r == other || OwnsValue(r, MarkerValue(other)))
    requires k.rtype != TXT && k.name != ""
    requires exists rs ::
      z == map[ZoneKey(k) := rs, ZoneKey(MarkerKey(other, k)) := map[MarkerValue(other) := DEFAULT_TTL]]
    ensures ClaimedBy(r, z, KeyText(k)) && Unmixed(r, z)
  {
    var name := TxtName(other, k);
    OwnsItsMarkers(other);
    RealKeyOfTxtName(r, k);
    assert MarkerValue(other) in MarkerSet(z, name);
    assert ClaimsAt(r, z, name, KeyText(k));
    forall n, v | v in MarkerSet(z, n) ensures v == MarkerValue(other) {
      assert ZoneKey(RecordKey(TXT, n)) != ZoneKey(k);
    }
  }
}
