/** Several reconcilers sharing one Cloudflare account and one marker prefix. Every API call is a
    step of its own, made from an index that may be as stale as it likes. */
module CloudInstances {
  import opened GoText
  import opened Endpoints
  import opened Planning
  import opened Registry
  import opened DnsZone
  import opened Convergence
  import opened CloudStore
  import opened Cloudflare
  import opened CloudRuns
  import Instances
  import TxtContent

  type Instance = Instances.Instance

  /** Where one instance is inside its run; while it writes, the store its index was built from
      and the calls it still has to make. */
  datatype Stage = Idle | Planned(changes: Changes) | Checked(out: Changes) | Writing(base: Cloud, calls: seq<Call>)

  datatype Shared = Shared(cloud: Cloud, stages: seq<Stage>)

  datatype Move =
    | Read(reading: map<Key, Endpoint>, desired: map<Key, Endpoint>, kept: set<Key>, changes: Changes)
    | Check(reading: map<Key, Endpoint>)
    | List(cfg: Account, index: RecordIndex)
    | Call
    | Abort

  ghost predicate Reads(inst: Instance, a: Shared, i: nat, mv: Move, b: Shared)
    requires mv.Read? && i < |a.stages| == |b.stages|
  {
    && a.stages[i].Idle? && ReadsCloud(a.cloud, mv.reading)
    && Keyed(mv.desired) && (forall k :: k in mv.desired ==> k in inst.universe && k.rtype != TXT)
    && IsPlanKeeping(mv.desired, Current(inst.scope, mv.reading), inst.policy, mv.kept, mv.changes)
    && b.stages[i] == Planned(mv.changes) && b.cloud == a.cloud
  }

  /** One step of instance `i`: reading and planning, looking up markers, listing for the index, one API call
      (on a missing record it does nothing), or giving up, which stands for every kind of failure and for the end. */
  ghost predicate Steps(insts: seq<Instance>, a: Shared, i: nat, mv: Move, b: Shared) {
    && |a.stages| == |b.stages| == |insts| && i < |insts|
    && (forall j :: 0 <= j < |insts| && j != i ==> b.stages[j] == a.stages[j])
    && match mv
       case Read(_, _, _, _) => Reads(insts[i], a, i, mv, b)
       case Check(m) =>
         && a.stages[i].Planned? && ReadsCloud(a.cloud, m) && b.cloud == a.cloud
         && b.stages[i] ==
              Checked(Decorated(insts[i].scope.owner, a.stages[i].changes, ExistingIn(insts[i].scope.owner, m)))
       case List(cfg, index) =>
         && a.stages[i].Checked? && Indexes(a.cloud, index) && b.cloud == a.cloud
         && b.stages[i] == Writing(a.cloud, Calls(cfg, a.stages[i].out, index))
       case Call =>
         && a.stages[i].Writing? && a.stages[i].calls != []
         && b.cloud == Do(a.cloud, a.stages[i].calls[0])
         && b.stages[i] == Writing(a.stages[i].base, a.stages[i].calls[1..])
       case Abort =>
         b.stages[i] == Idle && b.cloud == a.cloud
  }

  // ---- whose record a call touches ---------------------------------------------------------------------

  /** The call creates, rewrites or deletes a record of `e`, with one of its targets as content. */
  ghost predicate Serves(call: CloudStore.Call, e: Endpoint) {
    && For(call, ZoneKey(e.Key()))
    && (call.Create? ==> exists t :: t in e.targets && call.rec.content == ContentFor(e.rtype, t))
    && (call.Update? ==> exists t :: t in e.targets && call.content == ContentFor(e.rtype, t))
  }

  ghost predicate OwnCall(inst: Instance, call: CloudStore.Call) {
    call.NoZone? || exists e :: Instances.OwnWrite(inst, e) && Serves(call, e)
  }

  lemma CreateServes(cfg: Account, e: Endpoint, call: CloudStore.Call)
    requires call in CreateCalls(cfg, e) && !call.NoZone?
    ensures Serves(call, e)
  {
    var i :| 0 <= i < |e.targets| && CreatesOf(RecordsFor(cfg, e))[i] == call;
    RecordsAtKey(cfg, e, i);
    assert e.targets[i] in e.targets;
  }

  lemma BlockServes(cfg: Account, e: Endpoint, refs: seq<nat>, call: CloudStore.Call)
    requires call in CreateCalls(cfg, e) || call in UpdateCalls(cfg, e, refs)
      || call in DeleteCalls(refs, ZoneKey(e.Key()))
    requires !call.NoZone?
    ensures Serves(call, e)
  {
    if call in CreateCalls(cfg, e) {
      CreateServes(cfg, e, call);
    } else if InPlace(e, refs) && call in UpdateCalls(cfg, e, refs) {
      assert e.targets[0] in e.targets;
    }
  }

  lemma CallServes(cfg: Account, out: Changes, index: RecordIndex, call: CloudStore.Call) returns (e: Endpoint)
    requires call in Calls(cfg, out, index) && !call.NoZone?
    ensures (e in out.create || e in out.update || e in out.delete) && Serves(call, e)
  {
    var i := FlattenMember(Blocks(cfg, out, index), call);
    BlockKeys(cfg, out, index);
    BlockAt(cfg, out, index, i);
    e := InOrderOf(out)[i];
    assert e in InOrderOf(out);
    BlockServes(cfg, e, RefsAt(index, ZoneKey(e.Key())), call);
  }

  /** Every call prepared from a listing is addressed in it. */
  lemma CallsAddressed(c: Cloud, cfg: Account, out: Changes, index: RecordIndex)
    requires Indexes(c, index)
    ensures AllAddressed(c, Calls(cfg, out, index))
  {
    forall call | call in Calls(cfg, out, index) ensures Addressed(c, call) {
      var i := FlattenMember(Blocks(cfg, out, index), call);
      BlockKeys(cfg, out, index);
      BlocksFor(c, cfg, out, index, i);
    }
  }

  // ---- the invariant --------------------------------------------------------------------------------------

  /** Each instance's markers stand for keys of its own universe only. */
  ghost predicate ClaimsWithin(inst: Instance, c: Cloud) {
    forall k: Key, name :: ClaimsTxt(inst.scope.owner, c, name, KeyText(k)) ==> k in inst.universe
  }

  ghost predicate Listed(ch: Changes, e: Endpoint) {
    e in ch.create || e in ch.update || e in ch.delete
  }

  ghost predicate StageWithin(inst: Instance, c: Cloud, p: Stage) {
    match p
    case Idle => true
    case Planned(ch) => forall e :: Listed(ch, e) ==> Instances.OwnChange(inst, e)
    case Checked(out) => forall e :: Listed(out, e) ==> Instances.OwnWrite(inst, e)
    case Writing(base, calls) => base.Valid() && Later(base, c) && AllAddressed(base, calls) && AllOwnCalls(inst, calls)
  }

  ghost predicate AllOwnCalls(inst: Instance, calls: seq<CloudStore.Call>) {
    forall call :: call in calls ==> OwnCall(inst, call)
  }

  ghost predicate Inv(insts: seq<Instance>, a: Shared) {
    && |a.stages| == |insts| && a.cloud.Valid()
    && (forall i :: 0 <= i < |insts| ==> ClaimsWithin(insts[i], a.cloud))
    && (forall i :: 0 <= i < |insts| ==> StageWithin(insts[i], a.cloud, a.stages[i]))
  }

  /** Owner ids in printable text, on top of what separates instances anywhere. */
  ghost predicate Separate(insts: seq<Instance>) {
    && Instances.Separate(insts)
    && forall i :: 0 <= i < |insts| ==> TxtContent.Printable(insts[i].scope.owner.id)
  }

  /** What the instance owns, records and markers, is the same in both stores, ids included. */
  ghost predicate Unharmed(inst: Instance, c: Cloud, c': Cloud) {
    && (forall k: Key :: ClaimedTxt(inst.scope.owner, c, KeyText(k)) && k.rtype != TXT ==>
          Sub(c', ZoneKey(k)) == Sub(c, ZoneKey(k)))
    && (forall k: Key, name :: ClaimsTxt(inst.scope.owner, c, name, KeyText(k)) ==> TxtAt(c', name) == TxtAt(c, name))
  }

  // ---- steps that do not write ----------------------------------------------------------------------------

  lemma CurrentWithin(inst: Instance, c: Cloud, m: map<Key, Endpoint>, k: Key)
    requires ClaimsWithin(inst, c) && ReadsCloud(c, m) && k in Current(inst.scope, m)
    ensures k in inst.universe && k.rtype != TXT && Current(inst.scope, m)[k].Key() == k
  {
    ClaimRead(inst.scope.owner, c, m, KeyText(k));
    var name :| ClaimsTxt(inst.scope.owner, c, name, KeyText(k));
  }

  lemma ReadStaysWithin(inst: Instance, c: Cloud, m: map<Key, Endpoint>, desired: map<Key, Endpoint>, kept: set<Key>,
                        ch: Changes)
    requires ClaimsWithin(inst, c) && ReadsCloud(c, m) && Keyed(desired)
    requires forall k :: k in desired ==> k in inst.universe && k.rtype != TXT
    requires IsPlanKeeping(desired, Current(inst.scope, m), inst.policy, kept, ch)
    ensures forall e :: Listed(ch, e) ==> Instances.OwnChange(inst, e)
  {
    forall e | e in ch.delete ensures Instances.OwnChange(inst, e) {
      assert e.Key() in Deletes(desired, Current(inst.scope, m), inst.policy);
      CurrentWithin(inst, c, m, e.Key());
    }
    forall e | e in ch.create || e in ch.update ensures Instances.OwnChange(inst, e) {
      assert e.Key() in desired && desired[e.Key()] == e;
    }
  }

  lemma ListStaysWithin(inst: Instance, c: Cloud, cfg: Account, out: Changes, index: RecordIndex)
    requires c.Valid() && Indexes(c, index) && forall e :: Listed(out, e) ==> Instances.OwnWrite(inst, e)
    ensures StageWithin(inst, c, Writing(c, Calls(cfg, out, index)))
  {
    CallsAddressed(c, cfg, out, index);
    forall call | call in Calls(cfg, out, index) ensures OwnCall(inst, call) {
      if !call.NoZone? {
        var e := CallServes(cfg, out, index, call);
      }
    }
  }

  // ---- one API call ----------------------------------------------------------------------------------------

  /** A call addressed in one listing keeps every record's key, so it respects every other listing too. */
  lemma CallRespectsListings(base: Cloud, other: Cloud, c: Cloud, call: CloudStore.Call)
    requires base.Valid() && Later(base, c) && Addressed(base, call) && Later(other, c)
    ensures Later(other, Do(c, call))
  {
  }

  /** A record after a call was there before, or is the one the call wrote. */
  lemma RecordAfter(base: Cloud, c: Cloud, call: CloudStore.Call, id: nat)
    requires base.Valid() && Later(base, c) && Addressed(base, call) && id in Do(c, call).recs
    ensures var rec := Do(c, call).recs[id];
      || (id in c.recs && c.recs[id] == rec)
      || (call.Create? && rec == call.rec)
      || (call.Update? && rec.key == call.key && rec.content == call.content)
  {
  }

  /** A marker written by an instance carries its value. */
  lemma WrittenMarker(inst: Instance, call: CloudStore.Call, name: string, rec: CfRecord)
    requires TxtContent.Printable(inst.scope.owner.id) && OwnCall(inst, call)
    requires rec.key == ZoneKey(RecordKey(TXT, name))
    requires (call.Create? && rec == call.rec) || (call.Update? && rec.key == call.key && rec.content == call.content)
    ensures ContentOf(rec) == MarkerValue(inst.scope.owner)
    ensures exists k :: k in inst.universe && name == TxtName(inst.scope.owner, k)
  {
    var r := inst.scope.owner;
    var e :| Instances.OwnWrite(inst, e) && Serves(call, e);
    assert e.Key() == RecordKey(TXT, name);
    var k :| k in inst.universe && e.Key() == MarkerKey(r, k) && e.targets == [MarkerValue(r)];
    MarkerReadsBack(r);
  }

  lemma MarkerReadsBack(r: Owner)
    requires TxtContent.Printable(r.id)
    ensures TxtContent.UnquotedTxt(TxtContent.QuoteTxt(MarkerValue(r))) == MarkerValue(r)
  {
    MarkerWrapped(r);
    TxtContent.RoundTripExact(MarkerValue(r));
  }

  lemma CallAwayFromData(insts: seq<Instance>, call: CloudStore.Call, i: nat, j: nat, k: Key)
    requires Separate(insts) && i < |insts| && j < |insts| && i != j
    requires OwnCall(insts[i], call) && k in insts[j].universe && k.rtype != TXT
    ensures Away(call, ZoneKey(k))
  {
    if !call.NoZone? {
      var e :| Instances.OwnWrite(insts[i], e) && Serves(call, e);
      assert e.Key() != k;
    }
  }

  lemma CallAwayFromMarker(insts: seq<Instance>, call: CloudStore.Call, i: nat, j: nat, name: string, k: Key)
    requires Separate(insts) && i < |insts| && j < |insts| && i != j
    requires OwnCall(insts[i], call) && k in insts[j].universe
      && RealKey(insts[j].scope.owner, name) == Some(KeyText(k))
    ensures Away(call, ZoneKey(RecordKey(TXT, name)))
  {
    var ri, rj := insts[i].scope.owner, insts[j].scope.owner;
    if !call.NoZone? {
      var e :| Instances.OwnWrite(insts[i], e) && Serves(call, e);
      if e.Key() == RecordKey(TXT, name) {
        var l :| l in insts[i].universe && e.Key() == MarkerKey(ri, l);
        assert TxtName(ri, l) == TxtName(rj, l) == name;
        Instances.MarkerClaimsOnce(rj, l, k);
      }
    }
  }

  /** A call leaves alone what every other instance owns. */
  lemma CallHarmsNoOne(insts: seq<Instance>, base: Cloud, c: Cloud, call: CloudStore.Call, i: nat, j: nat)
    requires Separate(insts) && i < |insts| && j < |insts| && i != j
    requires base.Valid() && Later(base, c) && Addressed(base, call) && OwnCall(insts[i], call)
      && ClaimsWithin(insts[j], c)
    ensures Unharmed(insts[j], c, Do(c, call))
  {
    var r := insts[j].scope.owner;
    forall k: Key | ClaimedTxt(r, c, KeyText(k)) && k.rtype != TXT
      ensures Sub(Do(c, call), ZoneKey(k)) == Sub(c, ZoneKey(k))
    {
      CallAwayFromData(insts, call, i, j, k);
      DoFrame(base, c, call, ZoneKey(k));
    }
    forall k: Key, name | ClaimsTxt(r, c, name, KeyText(k)) ensures TxtAt(Do(c, call), name) == TxtAt(c, name) {
      CallAwayFromMarker(insts, call, i, j, name, k);
      DoFrame(base, c, call, ZoneKey(RecordKey(TXT, name)));
    }
  }

  /** A call gives nobody a claim outside its universe. */
  lemma CallClaimsWithin(insts: seq<Instance>, base: Cloud, c: Cloud, call: CloudStore.Call, i: nat, j: nat)
    requires Separate(insts) && i < |insts| && j < |insts|
    requires base.Valid() && Later(base, c) && Addressed(base, call) && OwnCall(insts[i], call)
      && ClaimsWithin(insts[j], c)
    ensures ClaimsWithin(insts[j], Do(c, call))
  {
    var r, c' := insts[j].scope.owner, Do(c, call);
    forall k: Key, name | ClaimsTxt(r, c', name, KeyText(k)) ensures k in insts[j].universe {
      var id :| id in TxtAt(c', name) && OwnRecord(r, TxtAt(c', name)[id]);
      RecordAfter(base, c, call, id);
      if id in TxtAt(c, name) && TxtAt(c, name)[id] == TxtAt(c', name)[id] {
        assert ClaimsTxt(r, c, name, KeyText(k));
      } else {
        WrittenMarker(insts[i], call, name, TxtAt(c', name)[id]);
        assert i == j;
        var l :| l in insts[i].universe && name == TxtName(insts[i].scope.owner, l);
        Instances.MarkerClaimsOnce(r, l, k);
      }
    }
  }

  lemma OtherStageKept(insts: seq<Instance>, a: Shared, i: nat, b: Shared, j: nat)
    requires Inv(insts, a) && Steps(insts, a, i, Call, b) && j < |insts|
    ensures StageWithin(insts[j], b.cloud, b.stages[j])
  {
    var call, base := a.stages[i].calls[0], a.stages[i].base;
    assert StageWithin(insts[i], a.cloud, a.stages[i]) && StageWithin(insts[j], a.cloud, a.stages[j]);
    if b.stages[j].Writing? {
      assert b.stages[j].base == a.stages[j].base;
      CallRespectsListings(base, a.stages[j].base, a.cloud, call);
      assert forall x :: x in b.stages[j].calls ==> x in a.stages[j].calls;
    }
  }

  lemma CallIsSafe(insts: seq<Instance>, a: Shared, i: nat, b: Shared)
    requires Separate(insts) && Inv(insts, a) && Steps(insts, a, i, Call, b)
    ensures Inv(insts, b)
    ensures forall j :: 0 <= j < |insts| && j != i ==> Unharmed(insts[j], a.cloud, b.cloud)
  {
    var call, base := a.stages[i].calls[0], a.stages[i].base;
    assert StageWithin(insts[i], a.cloud, a.stages[i]) && call in a.stages[i].calls;
    CallRespectsListings(base, base, a.cloud, call);
    forall j | 0 <= j < |insts| ensures ClaimsWithin(insts[j], b.cloud) {
      CallClaimsWithin(insts, base, a.cloud, call, i, j);
    }
    forall j | 0 <= j < |insts| ensures StageWithin(insts[j], b.cloud, b.stages[j]) {
      OtherStageKept(insts, a, i, b, j);
    }
    forall j | 0 <= j < |insts| && j != i ensures Unharmed(insts[j], a.cloud, b.cloud) {
      CallHarmsNoOne(insts, base, a.cloud, call, i, j);
    }
  }

  // ---- every interleaving --------------------------------------------------------------------------------

  lemma QuietStepIsSafe(insts: seq<Instance>, a: Shared, i: nat, mv: Move, b: Shared)
    requires Inv(insts, a) && Steps(insts, a, i, mv, b) && !mv.Call?
    ensures Inv(insts, b) && b.cloud == a.cloud
  {
    assert StageWithin(insts[i], a.cloud, a.stages[i]) && ClaimsWithin(insts[i], a.cloud);
    match mv
    case Read(m, desired, kept, ch) =>
      ReadStaysWithin(insts[i], a.cloud, m, desired, kept, ch);
    case Check(m) =>
      Instances.CheckStaysWithin(insts[i], a.stages[i].changes, ExistingIn(insts[i].scope.owner, m));
    case List(cfg, index) =>
      ListStaysWithin(insts[i], a.cloud, cfg, a.stages[i].out, index);
    case Abort =>
  }

  /** Every step keeps the invariant and leaves alone what every other instance owns. */
  lemma StepIsSafe(insts: seq<Instance>, a: Shared, i: nat, mv: Move, b: Shared)
    requires Separate(insts) && Inv(insts, a) && Steps(insts, a, i, mv, b)
    ensures Inv(insts, b)
    ensures forall j :: 0 <= j < |insts| && j != i ==> Unharmed(insts[j], a.cloud, b.cloud)
  {
    if mv.Call? {
      CallIsSafe(insts, a, i, b);
    } else {
      QuietStepIsSafe(insts, a, i, mv, b);
    }
  }

  ghost predicate Interleaving(insts: seq<Instance>, states: seq<Shared>, moves: seq<(nat, Move)>) {
    && |states| == |moves| + 1
    && forall t :: 0 <= t < |moves| ==> Steps(insts, states[t], moves[t].0, moves[t].1, states[t + 1])
  }

  ghost predicate Begins(insts: seq<Instance>, a: Shared) {
    && |a.stages| == |insts| && a.cloud.Valid()
    && forall i :: 0 <= i < |insts| ==> a.stages[i] == Idle && ClaimsWithin(insts[i], a.cloud)
  }

  lemma {:induction false} InvHolds(insts: seq<Instance>, states: seq<Shared>, moves: seq<(nat, Move)>, t: nat)
    requires Separate(insts) && Interleaving(insts, states, moves) && Begins(insts, states[0]) && t < |states|
    ensures Inv(insts, states[t])
  {
    if t > 0 {
      InvHolds(insts, states, moves, t - 1);
      StepIsSafe(insts, states[t - 1], moves[t - 1].0, moves[t - 1].1, states[t]);
    }
  }

  /** In every interleaving of single API calls, at every step, also from stale plans and stale indexes,
      nobody touches a record or a marker that another instance owns. */
  lemma NoInstanceHarmsAnother(insts: seq<Instance>, states: seq<Shared>, moves: seq<(nat, Move)>, t: nat, j: nat)
    requires Separate(insts) && Interleaving(insts, states, moves) && Begins(insts, states[0])
    requires t < |moves| && j < |insts| && j != moves[t].0
    ensures Unharmed(insts[j], states[t].cloud, states[t + 1].cloud)
  {
    InvHolds(insts, states, moves, t);
    StepIsSafe(insts, states[t], moves[t].0, moves[t].1, states[t + 1]);
  }
}
