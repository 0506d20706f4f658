/** The reconciler (internal/reconcile/reconcile.go): one `Run` from source records to provider
    calls, over the TXT registry and either backend, with the grace period. */
module Reconcile {
  import opened GoText
  import opened Endpoints
  import opened Planning
  import opened Registry
  import opened DnsZone
  import opened ZoneChoice
  import opened Convergence
  import opened Grace
  import CloudStore
  import Cloudflare
  import CloudProvider
  import CloudRuns
  import CloudRepair
  import Refinement
  import Rfc2136

  // ---- preparing the desired records ----------------------------------------------------

  /** What becomes of one source endpoint. */
  function PreparedOne(filter: seq<string>, defaultTarget: string, parseIP: string -> IPKind,
                       e: Endpoint): Option<Endpoint>
  {
    if e.targets == [] && defaultTarget == "" then None
    else if !InDomain(filter, e.name) then None
    else if e.targets == [] then Some(NewInferred(e.name, [defaultTarget], e.ttl, parseIP))
    else Some(e)
  }

  function PreparedList(filter: seq<string>, defaultTarget: string, parseIP: string -> IPKind,
                        es: seq<Endpoint>): seq<Endpoint>
  {
    if es == [] then [] else
      var last := PreparedOne(filter, defaultTarget, parseIP, es[|es| - 1]);
      PreparedList(filter, defaultTarget, parseIP, es[..|es| - 1]) + if last.Some? then [last.value] else []
  }

  /** What a run makes of a source endpoint it manages: the endpoint as it is or, when it has no target, one of
      that name and TTL with exactly the default target, no labels, and the type the target calls for. */
  predicate Becomes(e: Endpoint, p: Endpoint, defaultTarget: string, parseIP: string -> IPKind) {
    if e.targets != [] then p == e
    else
      && p.name == e.name && p.ttl == e.ttl && p.targets == [defaultTarget] && p.labels == map[]
      && (p.rtype == A <==> parseIP(defaultTarget) == IPv4)
      && (p.rtype == AAAA <==> parseIP(defaultTarget) == IPv6)
      && (p.rtype == CNAME <==> parseIP(defaultTarget) == NotIP)
  }

  predicate Manages(filter: seq<string>, defaultTarget: string, e: Endpoint) {
    (e.targets != [] || defaultTarget != "") && InDomain(filter, e.name)
  }

  /** `out` is made, in order, from the endpoints at the places `from`, which are all the managed ones. */
  ghost predicate PreparedFrom(filter: seq<string>, defaultTarget: string, parseIP: string -> IPKind,
                               eps: seq<Endpoint>, from: seq<nat>, out: seq<Endpoint>)
  {
    && |from| == |out|
    && (forall i, j :: 0 <= i < j < |from| ==> from[i] < from[j])
    && (forall j :: 0 <= j < |from| ==> from[j] < |eps| && Becomes(eps[from[j]], out[j], defaultTarget, parseIP))
    && (forall i :: 0 <= i < |eps| ==> (i in from <==> Manages(filter, defaultTarget, eps[i])))
  }

  lemma PrepareSkip(filter: seq<string>, defaultTarget: string, parseIP: string -> IPKind, eps: seq<Endpoint>,
                    e: Endpoint, from: seq<nat>, out: seq<Endpoint>)
    requires PreparedFrom(filter, defaultTarget, parseIP, eps, from, out) && !Manages(filter, defaultTarget, e)
    ensures PreparedFrom(filter, defaultTarget, parseIP, eps + [e], from, out)
  {
    forall i | i in from ensures i < |eps| {
      var j :| 0 <= j < |from| && from[j] == i;
    }
  }

  lemma PrepareKeep(filter: seq<string>, defaultTarget: string, parseIP: string -> IPKind, eps: seq<Endpoint>,
                    e: Endpoint, from: seq<nat>, out: seq<Endpoint>, p: Endpoint)
    requires PreparedFrom(filter, defaultTarget, parseIP, eps, from, out) && Manages(filter, defaultTarget, e)
    requires Becomes(e, p, defaultTarget, parseIP)
    ensures PreparedFrom(filter, defaultTarget, parseIP, eps + [e], from + [|eps|], out + [p])
  {
    var from', eps' := from + [|eps|], eps + [e];
    assert from'[|from|] == |eps|;
    forall i | 0 <= i < |eps'| ensures i in from' <==> Manages(filter, defaultTarget, eps'[i]) {
      assert i in from' <==> i in from || i == |eps|;
      if i in from {
        var j :| 0 <= j < |from| && from[j] == i;
      }
    }
  }

  lemma {:induction false} PreparedPlaces(filter: seq<string>, defaultTarget: string, parseIP: string -> IPKind,
                                          eps: seq<Endpoint>) returns (from: seq<nat>)
    ensures PreparedFrom(filter, defaultTarget, parseIP, eps, from, PreparedList(filter, defaultTarget, parseIP, eps))
  {
    if eps == [] {
      from := [];
    } else {
      var init, last := eps[..|eps| - 1], eps[|eps| - 1];
      var p := PreparedOne(filter, defaultTarget, parseIP, last);
      from := PreparedPlaces(filter, defaultTarget, parseIP, init);
      assert eps == init + [last];
      if p.Some? {
        PrepareKeep(filter, defaultTarget, parseIP, init, last, from,
                    PreparedList(filter, defaultTarget, parseIP, init), p.value);
        from := from + [|init|];
      } else {
        PrepareSkip(filter, defaultTarget, parseIP, init, last, from,
                    PreparedList(filter, defaultTarget, parseIP, init));
        assert PreparedList(filter, defaultTarget, parseIP, init) + [] ==
          PreparedList(filter, defaultTarget, parseIP, init);
      }
    }
  }

  /** `prepare`. */
  method Prepare(filter: seq<string>, defaultTarget: string, parseIP: string -> IPKind, eps: seq<Endpoint>)
    returns (out: seq<Endpoint>, ghost from: seq<nat>)
    ensures out == PreparedList(filter, defaultTarget, parseIP, eps)
    ensures PreparedFrom(filter, defaultTarget, parseIP, eps, from, out)
  {
    out := [];
    for i := 0 to |eps|
      invariant out == PreparedList(filter, defaultTarget, parseIP, eps[..i])
    {
      assert eps[..i + 1][..i] == eps[..i];
      var e := eps[i];
      if |e.targets| == 0 {
        if defaultTarget == "" {
          continue;
        }
        e := NewInferred(e.name, [defaultTarget], e.ttl, parseIP);
      }
      var ok := CheckInDomain(filter, e.name);
      if ok {
        out := out + [e];
      }
    }
    assert eps[..|eps|] == eps;
    from := PreparedPlaces(filter, defaultTarget, parseIP, eps);
  }

  lemma {:induction false} PreparedScoped(filter: seq<string>, defaultTarget: string, parseIP: string -> IPKind,
                                          es: seq<Endpoint>)
    ensures forall p ::
      p in PreparedList(filter, defaultTarget, parseIP, es) ==> p.targets != [] && InDomain(filter, p.name)
  {
    if es != [] {
      PreparedScoped(filter, defaultTarget, parseIP, es[..|es| - 1]);
    }
  }

  predicate Overrides(e: Endpoint) {
    e.rtype != TXT && PROXIED in e.labels && (e.labels[PROXIED] == "true" || e.labels[PROXIED] == "false")
  }

  /** The provider documentation promises that the proxied label of a container overrides the default. The records
      written for a prepared endpoint carry the override exactly when the container named its own target, or when
      the override says what the default says anyway: filling in the default target drops the labels. */
  lemma OverrideHonouredIff(cfg: Cloudflare.Account, filter: seq<string>, defaultTarget: string,
                            parseIP: string -> IPKind, e: Endpoint, p: Endpoint, sub: map<nat, CloudStore.CfRecord>)
    requires PreparedOne(filter, defaultTarget, parseIP, e) == Some(p) && Overrides(e)
    requires sub != map[] && Cloudflare.Holds(cfg, p, sub)
    ensures (forall id :: id in sub ==> sub[id].proxied == (e.labels[PROXIED] == "true")) <==>
      e.targets != [] || cfg.proxied == (e.labels[PROXIED] == "true")
  {
    PreparedFlag(cfg, filter, defaultTarget, parseIP, e, p);
    WrittenFlag(cfg, p, sub);
    OneFlag(sub, Cloudflare.ProxiedFor(cfg, p), e.labels[PROXIED] == "true");
  }

  lemma PreparedFlag(cfg: Cloudflare.Account, filter: seq<string>, defaultTarget: string, parseIP: string -> IPKind,
                     e: Endpoint, p: Endpoint)
    requires PreparedOne(filter, defaultTarget, parseIP, e) == Some(p) && Overrides(e)
    ensures Cloudflare.ProxiedFor(cfg, p) == if e.targets != [] then e.labels[PROXIED] == "true" else cfg.proxied
  {
  }

  lemma OneFlag(sub: map<nat, CloudStore.CfRecord>, flag: bool, wanted: bool)
    requires sub != map[] && forall id :: id in sub ==> sub[id].proxied == flag
    ensures (forall id :: id in sub ==> sub[id].proxied == wanted) <==> flag == wanted
  {
    var id :| id in sub;
    assert sub[id].proxied == flag;
  }

  lemma WrittenFlag(cfg: Cloudflare.Account, p: Endpoint, sub: map<nat, CloudStore.CfRecord>)
    requires Cloudflare.Holds(cfg, p, sub)
    ensures forall id :: id in sub ==> sub[id].proxied == Cloudflare.ProxiedFor(cfg, p)
  {
    Cloudflare.HoldsIsPart(cfg, p, sub);
  }

  /** For one, the documentation's own example: a container that opts out of the proxy and leaves its target to the
      default is written as proxied. */
  lemma OptOutIsLost(cfg: Cloudflare.Account, parseIP: string -> IPKind, e: Endpoint, p: Endpoint,
                     sub: map<nat, CloudStore.CfRecord>)
    requires e == Endpoint("direct.example.com", [], CNAME, 0, map[PROXIED := "false"]) && cfg.proxied
    requires PreparedOne([], "tunnel.example.com", parseIP, e) == Some(p) && Cloudflare.Holds(cfg, p, sub)
    ensures p.targets == ["tunnel.example.com"] && sub != map[]
    ensures forall id :: id in sub ==> sub[id].proxied
  {
    OptOutPrepared(cfg, parseIP, e, p);
    WrittenFlag(cfg, p, sub);
    CloudRepair.HeldNotEmpty(cfg, p, sub);
  }

  lemma OptOutPrepared(cfg: Cloudflare.Account, parseIP: string -> IPKind, e: Endpoint, p: Endpoint)
    requires e.targets == [] && PreparedOne([], "tunnel.example.com", parseIP, e) == Some(p) && cfg.proxied
    ensures p.targets == ["tunnel.example.com"] && Cloudflare.ProxiedFor(cfg, p)
  {
  }

  // ---- scoping the current records ---------------------------------------------------------

  function Scoped(filter: seq<string>, es: seq<Endpoint>): seq<Endpoint> {
    if es == [] then [] else
      var last := es[|es| - 1];
      Scoped(filter, es[..|es| - 1]) + if InDomain(filter, last.name) then [last] else []
  }

  method ScopeTo(filter: seq<string>, eps: seq<Endpoint>) returns (out: seq<Endpoint>)
    ensures out == Scoped(filter, eps)
  {
    out := [];
    for i := 0 to |eps|
      invariant out == Scoped(filter, eps[..i])
    {
      assert eps[..i + 1][..i] == eps[..i];
      var ok := CheckInDomain(filter, eps[i].name);
      if ok {
        out := out + [eps[i]];
      }
    }
    assert eps[..|eps|] == eps;
  }

  lemma {:induction false} ScopedListed(filter: seq<string>, es: seq<Endpoint>)
    ensures forall e :: e in Scoped(filter, es) <==> e in es && InDomain(filter, e.name)
    ensures DistinctKeys(es) ==> DistinctKeys(Scoped(filter, es))
  {
    if es != [] {
      var init := es[..|es| - 1];
      assert es == init + [es[|es| - 1]];
      ScopedListed(filter, init);
      var fs := Scoped(filter, init);
      if DistinctKeys(es) {
        forall i | 0 <= i < |fs| ensures fs[i].Key() != es[|es| - 1].Key() {
          assert fs[i] in fs;
          var j :| 0 <= j < |init| && init[j] == fs[i];
        }
      }
    }
  }

  lemma DistinctLists(es: seq<Endpoint>)
    requires DistinctKeys(es)
    ensures Lists(es, IndexOf(es))
  {
    forall e | e in es ensures e.Key() in IndexOf(es) && IndexOf(es)[e.Key()] == e {
      var i :| 0 <= i < |es| && es[i] == e;
      IndexOfDistinct(es, i);
    }
  }

  /** The scoped owned records are the run's current map. */
  lemma ScopedIsCurrent(s: Scope, all: seq<Endpoint>)
    requires DistinctKeys(all)
    ensures IndexOf(Scoped(s.filter, OwnedOf(s.owner, all, all))) == Current(s, IndexOf(all))
  {
    var owned, cur := OwnedOf(s.owner, all, all), Current(s, IndexOf(all));
    RecordsAreOwned(s.owner, all);
    DistinctLists(owned);
    ScopedListed(s.filter, owned);
    var es := Scoped(s.filter, owned);
    forall e | e in es ensures e.Key() in cur && cur[e.Key()] == e {
      assert e.Key().name == e.name;
    }
    forall k | k in cur ensures cur[k] in es {
      assert IndexOf(owned)[k].Key() == k;
    }
    ListsIndex(es, cur);
  }

  // ---- backends -------------------------------------------------------------------------------

  datatype Backend = Zone(server: DnsServer) | Cf(api: CloudProvider.CloudApi, proxied: bool)

  function Objects(b: Backend): set<object> {
    match b
    case Zone(server) => {server}
    case Cf(api, _) => {api}
  }

  ghost predicate BackendValid(b: Backend)
    reads Objects(b)
  {
    b.Cf? ==> b.api.Valid()
  }

  /** `m` is a reading of the backend. */
  ghost predicate Reads(b: Backend, m: map<Key, Endpoint>)
    reads Objects(b)
  {
    match b
    case Zone(server) => Rfc2136.ReadsZone(server.zone, m)
    case Cf(api, _) => Cloudflare.ReadsCloud(api.cloud, m)
  }

  ghost function ZoneOf(b: Backend): DnsZone.Zone
    reads Objects(b)
  {
    if b.Zone? then b.server.zone else map[]
  }

  ghost function CloudOf(b: Backend): CloudStore.Cloud
    reads Objects(b)
  {
    if b.Cf? then b.api.cloud else CloudStore.Cloud(map[], 0)
  }

  /** How many calls that read, and that write, have failed so far. */
  ghost function FailedReads(b: Backend): nat
    reads Objects(b)
  {
    if b.Zone? then b.server.failedReads else b.api.failedReads
  }

  ghost function FailedWrites(b: Backend): nat
    reads Objects(b)
  {
    if b.Zone? then b.server.failedWrites else b.api.failedWrites
  }

  method ProviderRecords(b: Backend) returns (ok: bool, all: seq<Endpoint>)
    requires BackendValid(b)
    modifies Objects(b)
    ensures BackendValid(b) && ZoneOf(b) == old(ZoneOf(b)) && CloudOf(b) == old(CloudOf(b))
    ensures FailedWrites(b) == old(FailedWrites(b))
    ensures ok <==> FailedReads(b) == old(FailedReads(b))
    ensures ok ==> DistinctKeys(all) && Reads(b, IndexOf(all))
  {
    match b
    case Zone(server) =>
      ok, all := Rfc2136.Records(server);
    case Cf(api, _) =>
      ok, all := CloudProvider.Records(api);
  }

  /** `Records` of the registry. */
  method OwnedRecords(r: Owner, b: Backend) returns (ok: bool, out: seq<Endpoint>, ghost all: seq<Endpoint>)
    requires BackendValid(b)
    modifies Objects(b)
    ensures BackendValid(b) && ZoneOf(b) == old(ZoneOf(b)) && CloudOf(b) == old(CloudOf(b))
    ensures FailedWrites(b) == old(FailedWrites(b))
    ensures ok <==> FailedReads(b) == old(FailedReads(b))
    ensures ok ==> DistinctKeys(all) && Reads(b, IndexOf(all)) && out == OwnedOf(r, all, all)
  {
    var read;
    ok, read := ProviderRecords(b);
    all := read;
    if !ok {
      return false, [], all;
    }
    out := Records(r, read);
  }

  /** What happened to a zone, or to a Cloudflare store, when the registry applied `ch`. */
  ghost predicate ZoneApplied(r: Owner, ch: Changes, second: map<Key, Endpoint>, ok: bool, z: DnsZone.Zone,
                              z': DnsZone.Zone)
  {
    || (!ok && z' == z)
    || (&& Rfc2136.ReadsZone(z, second)
        && z' == DnsZone.Process(z, Rfc2136.Message(Decorated(r, ch, ExistingIn(r, second)))))
  }

  ghost predicate CloudApplied(r: Owner, cfg: Cloudflare.Account, ch: Changes, second: map<Key, Endpoint>,
                               index: Cloudflare.RecordIndex, done: nat, ok: bool, c: CloudStore.Cloud,
                               c': CloudStore.Cloud) {
    || (!ok && c' == c)
    || (Cloudflare.ReadsCloud(c, second)
         && CloudProvider.Applied(c, cfg, Decorated(r, ch, ExistingIn(r, second)), index, done, ok, c'))
  }

  /** No call failed, and on Cloudflare every name that had to be created has an accessible zone. */
  ghost predicate Undisturbed(b: Backend, readsFine: bool, writesFine: bool, r: Owner, ch: Changes,
                              second: map<Key, Endpoint>, index: Cloudflare.RecordIndex)
  {
    if b.Zone? then readsFine && writesFine
    else CloudProvider.Undisturbed(readsFine, writesFine, Cloudflare.Account(b.api.zones, b.proxied),
                                   Decorated(r, ch, ExistingIn(r, second)), index)
  }

  /** `ApplyChanges` of the registry: looks up the existing markers, adds what is missing, applies. */
  method ApplyOwned(r: Owner, b: Backend, ch: Changes)
    returns (ok: bool, ghost second: map<Key, Endpoint>, ghost index: Cloudflare.RecordIndex, ghost done: nat)
    requires BackendValid(b)
    modifies Objects(b)
    ensures BackendValid(b)
    ensures ok <==> Undisturbed(b, FailedReads(b) == old(FailedReads(b)), FailedWrites(b) == old(FailedWrites(b)),
                                r, ch, second, index)
    ensures b.Zone? ==> ZoneApplied(r, ch, second, ok, old(b.server.zone), b.server.zone)
    ensures b.Cf? ==> CloudApplied(r, Cloudflare.Account(b.api.zones, b.proxied), ch, second, index, done, ok,
                                   old(b.api.cloud), b.api.cloud)
  {
    index, done := map[], 0;
    var all;
    ok, all := ProviderRecords(b);
    second := IndexOf(all);
    if !ok {
      return;
    }
    var existing := ExistingOwnership(r, all);
    ExistingAgree(r, all);
    var out := Decorate(r, ch, existing);
    match b
    case Zone(server) =>
      ok := Rfc2136.ApplyChanges(server, out);
    case Cf(api, proxied) =>
      ok, index, done := CloudProvider.ApplyChanges(api, proxied, out);
  }

  // ---- the reconciler ---------------------------------------------------------------------------

  datatype Result = Result(managed: nat, create: nat, update: nat, delete: nat)

  /** What a run knew and did: the reading it planned from, the one it looked up markers in, its
      changes, the keys grace kept, and for Cloudflare the index and the number of calls made. */
  datatype Trace = Trace(first: map<Key, Endpoint>, second: map<Key, Endpoint>, changes: Changes, kept: set<Key>,
                         index: Cloudflare.RecordIndex, done: nat)

  /** The run got as far as planning. */
  ghost predicate PlannedRun(s: Scope, desired: map<Key, Endpoint>, policy: string, t: Trace) {
    IsPlanKeeping(desired, Current(s, t.first), policy, t.kept, t.changes)
  }

  class Reconciler {
    const scope: Scope
    const defaultTarget: string
    const policy: string
    const parseIP: string -> IPKind
    const backend: Backend
    const grace: GraceState?

    constructor (scope: Scope, defaultTarget: string, policy: string, gracePeriod: int, parseIP: string -> IPKind,
                 backend: Backend)
      requires BackendValid(backend)
      ensures Valid() && this.scope == scope && this.policy == policy && this.backend == backend
        && this.defaultTarget == defaultTarget && this.parseIP == parseIP
      ensures grace != null <==> gracePeriod > 0
      ensures grace != null ==> grace.period == gracePeriod && grace.history == [] && fresh(grace)
    {
      this.scope, this.defaultTarget, this.policy, this.parseIP, this.backend :=
        scope, defaultTarget, policy, parseIP, backend;
      var g: GraceState? := null;
      if gracePeriod > 0 {
        g := new GraceState(gracePeriod);
      }
      grace := g;
    }

    function Repr(): set<object> {
      Objects(backend) + if grace == null then {} else {grace}
    }

    ghost predicate Valid()
      reads Repr()
    {
      BackendValid(backend) && (grace != null ==> grace.Valid() && grace !in Objects(backend))
    }

    function Desired(eps: seq<Endpoint>): seq<Endpoint> {
      PreparedList(scope.filter, defaultTarget, parseIP, eps)
    }

    ghost function History(): seq<Visit>
      reads Repr()
    {
      if grace == null then [] else grace.history
    }

    /** The keys grace kept back, and the visit it recorded. */
    ghost predicate Graced(eps: seq<Endpoint>, now: int, t: Trace, before: seq<Visit>)
      reads Repr()
    {
      if grace == null then t.kept == {}
      else
        && t.kept == grace.lastSeen.Keys
        && grace.history == before + [Visit(now, KeysOf(Desired(eps)), Current(scope, t.first).Keys)]
    }

    /** The scoped owned records. */
    method ReadCurrent() returns (ok: bool, current: seq<Endpoint>, ghost first: map<Key, Endpoint>)
      requires Valid()
      modifies Objects(backend)
      ensures Valid() && ZoneOf(backend) == old(ZoneOf(backend)) && CloudOf(backend) == old(CloudOf(backend))
      ensures FailedWrites(backend) == old(FailedWrites(backend))
      ensures ok <==> FailedReads(backend) == old(FailedReads(backend))
      ensures ok ==> Reads(backend, first) && IndexOf(current) == Current(scope, first)
    {
      ghost var all;
      ok, current, all := OwnedRecords(scope.owner, backend);
      first := IndexOf(all);
      if ok {
        current := ScopeTo(scope.filter, current);
        ScopedIsCurrent(scope, all);
      }
    }

    /** The diff, less the deletes that grace keeps back. */
    method PlanChanges(desired: seq<Endpoint>, current: seq<Endpoint>, now: int)
      returns (changes: Changes, ghost kept: set<Key>)
      requires Valid()
      modifies if grace == null then {} else {grace}
      ensures grace != null ==> grace.Valid()
      ensures IsPlanKeeping(IndexOf(desired), IndexOf(current), policy, kept, changes)
      ensures if grace == null then kept == {} else
        kept == grace.lastSeen.Keys
          && grace.history == old(grace.history) + [Visit(now, KeysOf(desired), IndexOf(current).Keys)]
    {
      changes := Calculate(desired, current, policy);
      if grace != null {
        var delete := grace.Withhold(now, desired, current, changes.delete);
        FilteredPlanKeeps(IndexOf(desired), IndexOf(current), policy, changes, grace.lastSeen);
        KeysIndexed(current);
        changes, kept := changes.(delete := delete), grace.lastSeen.Keys;
      } else {
        kept := {};
        NothingKept(IndexOf(desired), IndexOf(current), policy, changes);
      }
    }

    /** No call failed, and no name lacked a zone. */
    ghost predicate Unhindered(readsFine: bool, writesFine: bool, t: Trace) {
      Undisturbed(backend, readsFine, writesFine, scope.owner, t.changes, t.second, t.index)
    }

    /** One reconcile: `eps` is what the sources yielded, or `None` when they failed. */
    method Run(eps: Option<seq<Endpoint>>, now: int)
      returns (ok: bool, res: Result, ghost planned: bool, ghost t: Trace)
      requires Valid()
      modifies Repr()
      ensures Valid()
      ensures ok ==> planned
      ensures eps.Some? && FailedReads(backend) == old(FailedReads(backend)) ==> planned
      ensures ok <==> eps.Some? && Unhindered(FailedReads(backend) == old(FailedReads(backend)),
                                              FailedWrites(backend) == old(FailedWrites(backend)), t)
      ensures planned ==> eps.Some? && PlannedRun(scope, IndexOf(Desired(eps.value)), policy, t)
      ensures planned ==> Graced(eps.value, now, t, old(History()))
      ensures planned ==>
        res == Result(|Desired(eps.value)|, |t.changes.create|, |t.changes.update|, |t.changes.delete|)
      ensures !planned ==> History() == old(History()) && res == Result(0, 0, 0, 0)
      ensures backend.Zone? ==>
        ZoneRan(scope, Wanted(eps), policy, t, ok, planned, old(backend.server.zone), backend.server.zone)
      ensures backend.Cf? ==>
        CloudRan(scope, Cloudflare.Account(backend.api.zones, backend.proxied), Wanted(eps), policy, t, ok, planned,
                                       old(backend.api.cloud), backend.api.cloud)
    {
      res, planned := Result(0, 0, 0, 0), false;
      t := Trace(map[], map[], Changes([], [], [], []), {}, map[], 0);
      if eps.None? {
        return false, res, false, t;
      }
      ghost var from;
      var desired;
      desired, from := Prepare(scope.filter, defaultTarget, parseIP, eps.value);
      var current;
      ghost var first;
      ok, current, first := ReadCurrent();
      if !ok {
        return;
      }
      var changes;
      ghost var kept;
      changes, kept := PlanChanges(desired, current, now);
      planned := true;
      t := Trace(first, first, changes, kept, map[], 0);
      res := Result(|desired|, |changes.create|, |changes.update|, |changes.delete|);
      if changes.Empty() {
        NothingHinders(backend, scope.owner, t.changes, t.second);
        if backend.Cf? {
          ghost var index := CloudProvider.SomeIndex(backend.api.cloud.recs, backend.api.cloud.next);
          t := t.(index := index);
          EmptyCloudRan(scope, Cloudflare.Account(backend.api.zones, backend.proxied), Wanted(eps), policy, t,
                        backend.api.cloud);
        }
        return;
      }
      t, ok := Apply(t, changes, Wanted(eps));
    }

    ghost function Wanted(eps: Option<seq<Endpoint>>): map<Key, Endpoint> {
      if eps.Some? then IndexOf(Desired(eps.value)) else map[]
    }

    /** The last part of `Run`. */
    method Apply(ghost t: Trace, changes: Changes, ghost desired: map<Key, Endpoint>)
      returns (ghost t': Trace, ok: bool)
      requires BackendValid(backend) && Reads(backend, t.first) && PlannedRun(scope, desired, policy, t)
        && t.changes == changes && !changes.Empty()
      modifies Objects(backend)
      ensures BackendValid(backend)
      ensures ok <==> Unhindered(FailedReads(backend) == old(FailedReads(backend)),
                                 FailedWrites(backend) == old(FailedWrites(backend)), t')
      ensures t' == t.(second := t'.second, index := t'.index, done := t'.done)
      ensures backend.Zone? ==>
        ZoneRan(scope, desired, policy, t', ok, true, old(backend.server.zone), backend.server.zone)
      ensures backend.Cf? ==>
        CloudRan(scope, Cloudflare.Account(backend.api.zones, backend.proxied), desired, policy, t', ok, true,
                                       old(backend.api.cloud), backend.api.cloud)
    {
      ghost var second, index, done;
      ghost var z0 := if backend.Zone? then backend.server.zone else map[];
      ghost var c0 := if backend.Cf? then backend.api.cloud else CloudStore.Cloud(map[], 0);
      ok, second, index, done := ApplyOwned(scope.owner, backend, changes);
      t' := t.(second := second, index := index, done := done);
      if backend.Zone? {
        ZoneAppliedRan(scope, desired, policy, t', ok, z0, backend.server.zone);
      } else {
        CloudAppliedRan(scope, Cloudflare.Account(backend.api.zones, backend.proxied), desired, policy, t', ok, c0,
                        backend.api.cloud);
      }
    }
  }

  lemma NothingHinders(b: Backend, r: Owner, ch: Changes, second: map<Key, Endpoint>)
    requires ch.Empty()
    ensures forall index :: Undisturbed(b, true, true, r, ch, second, index)
  {
    var out := Decorated(r, ch, ExistingIn(r, second));
    assert out.create == [] && out.update == [] && out.delete == [];
    if b.Cf? {
      forall index: Cloudflare.RecordIndex
        ensures Cloudflare.Calls(Cloudflare.Account(b.api.zones, b.proxied), out, index) == []
      {
      }
    }
  }

  /** On Cloudflare, a run whose desired records can be hosted is only ever stopped by a failing call. */
  lemma HostableMeetsNoGap(w: CloudRuns.Goal, policy: string, t: Trace, c: CloudStore.Cloud)
    requires CloudRuns.Hostable(w) && Cloudflare.ReadsCloud(c, t.first) && PlannedRun(w.s, w.desired, policy, t)
    ensures CloudProvider.Undisturbed(true, true, w.cfg,
                                      Decorated(w.s.owner, t.changes, ExistingIn(w.s.owner, t.second)), t.index)
  {
    CloudRuns.CurrentShape(w.s, c, t.first);
    KeepingIsDrawn(w.desired, Current(w.s, t.first), policy, t.kept, t.changes);
    CloudRuns.DrawnResolves(w, t.changes, ExistingIn(w.s.owner, t.second));
    CloudProvider.ResolvedNoZone(w.cfg, Decorated(w.s.owner, t.changes, ExistingIn(w.s.owner, t.second)), t.index);
  }

  lemma ZoneAppliedRan(s: Scope, desired: map<Key, Endpoint>, policy: string, t: Trace, ok: bool, z: DnsZone.Zone,
                       z': DnsZone.Zone)
    requires Rfc2136.ReadsZone(z, t.first) && PlannedRun(s, desired, policy, t) && !t.changes.Empty()
    requires ZoneApplied(s.owner, t.changes, t.second, ok, z, z')
    ensures ZoneRan(s, desired, policy, t, ok, true, z, z')
  {
  }

  lemma CloudAppliedRan(s: Scope, cfg: Cloudflare.Account, desired: map<Key, Endpoint>, policy: string, t: Trace,
                        ok: bool, c: CloudStore.Cloud, c': CloudStore.Cloud)
    requires Cloudflare.ReadsCloud(c, t.first) && PlannedRun(s, desired, policy, t) && !t.changes.Empty()
    requires CloudApplied(s.owner, cfg, t.changes, t.second, t.index, t.done, ok, c, c')
    ensures CloudRan(s, cfg, desired, policy, t, ok, true, c, c')
  {
  }

  lemma NothingKept(desired: map<Key, Endpoint>, current: map<Key, Endpoint>, policy: string, ch: Changes)
    requires IsPlan(desired, current, policy, ch)
    ensures IsPlanKeeping(desired, current, policy, {}, ch)
  {
    assert Deletes(desired, current, policy) - {} == Deletes(desired, current, policy);
  }

  lemma KeysIndexed(es: seq<Endpoint>)
    ensures KeysOf(es) == IndexOf(es).Keys
  {
    forall e | e in es ensures e.Key() in IndexOf(es) {
      var i :| 0 <= i < |es| && es[i] == e;
    }
  }

  /** A run against a zone is one of the runs the convergence theorems speak of, or failed and changed
      nothing; it may also be reported as failed when only the answer was lost. */
  ghost predicate ZoneRan(s: Scope, desired: map<Key, Endpoint>, policy: string, t: Trace, ok: bool, planned: bool,
                          z: DnsZone.Zone, z': DnsZone.Zone)
  {
    && (planned ==> Rfc2136.ReadsZone(z, t.first))
    && ((!ok && z' == z) || Convergence.Runs(s, desired, policy, t.kept, z, ZoneRun(t.first, t.second, t.changes), z'))
  }

  /** A run against Cloudflare is complete, or was cut off after `done` calls, or changed nothing. */
  ghost predicate CloudRan(s: Scope, cfg: Cloudflare.Account, desired: map<Key, Endpoint>, policy: string, t: Trace,
                           ok: bool, planned: bool, c: CloudStore.Cloud, c': CloudStore.Cloud) {
    var run := CloudRuns.CloudRun(t.first, t.second, t.changes, t.index);
    && (planned ==> Cloudflare.ReadsCloud(c, t.first))
    && (ok ==> CloudRuns.RunsFully(CloudRuns.Goal(s, cfg, desired), policy, t.kept, c, run, c'))
    && (!ok ==> c' == c || CloudRuns.RunsUpTo(CloudRuns.Goal(s, cfg, desired), policy, t.kept, c, run, t.done, c'))
  }

  lemma EmptyCloudRan(s: Scope, cfg: Cloudflare.Account, desired: map<Key, Endpoint>, policy: string, t: Trace,
                      c: CloudStore.Cloud)
    requires Cloudflare.ReadsCloud(c, t.first) && t.second == t.first && Cloudflare.Indexes(c, t.index)
    requires PlannedRun(s, desired, policy, t) && t.changes.Empty()
    ensures CloudRan(s, cfg, desired, policy, t, true, true, c, c)
  {
  }

  // ---- what a run may touch ------------------------------------------------------------------------

  lemma IndexedPrepared(s: Scope, defaultTarget: string, parseIP: string -> IPKind, eps: seq<Endpoint>, k: Key)
    requires k in IndexOf(PreparedList(s.filter, defaultTarget, parseIP, eps))
    ensures var e := IndexOf(PreparedList(s.filter, defaultTarget, parseIP, eps))[k];
      e.Key() == k && e.targets != [] && InDomain(s.filter, k.name)
  {
    PreparedScoped(s.filter, defaultTarget, parseIP, eps);
  }

  /** Scope safety: whatever the sources say and whatever the provider answers, the changes of a run
      name keys inside the domain filter only, write only records with a target, update and delete
      only records whose ownership marker had been read, and the registry adds nothing but markers of those keys. */
  lemma ScopeSafety(s: Scope, defaultTarget: string, parseIP: string -> IPKind, eps: seq<Endpoint>, policy: string,
                    t: Trace, existing: set<string>)
    requires PlannedRun(s, IndexOf(PreparedList(s.filter, defaultTarget, parseIP, eps)), policy, t)
    ensures forall e :: Rfc2136.InChanges(t.changes, e) ==> InDomain(s.filter, e.name)
    ensures forall e :: e in t.changes.create || e in t.changes.update ==> e.targets != []
    ensures forall e ::
      e in t.changes.update || e in t.changes.delete ==> e.rtype != TXT && Claimed(s.owner, t.first, KeyText(e.Key()))
    ensures forall e ::
      Rfc2136.InChanges(Decorated(s.owner, t.changes, existing), e) && !Rfc2136.InChanges(t.changes, e) ==>
      exists f :: Rfc2136.InChanges(t.changes, f) && e == Marker(s.owner, f)
  {
    var desired, cur := IndexOf(PreparedList(s.filter, defaultTarget, parseIP, eps)), Current(s, t.first);
    forall k | k in desired ensures desired[k].Key() == k && desired[k].targets != [] && InDomain(s.filter, k.name) {
      IndexedPrepared(s, defaultTarget, parseIP, eps, k);
    }
    forall e | e in t.changes.create || e in t.changes.update ensures e.targets != [] && InDomain(s.filter, e.name) {
      assert e.Key() in desired && desired[e.Key()] == e && e.Key().name == e.name;
    }
    forall e | e in t.changes.update || e in t.changes.delete ensures e.Key() in cur {
      assert e in t.changes.delete ==> e.Key() in Deletes(desired, cur, policy);
    }
    assert forall e: Endpoint :: e.Key().name == e.name && e.Key().rtype == e.rtype;
    AddedAreMarkers(s.owner, t.changes, existing);
  }

  /** What was read was there: the marker of every updated or deleted record sat in the zone. */
  lemma ZoneRecordsWereMarked(s: Scope, desired: map<Key, Endpoint>, policy: string, t: Trace, z: DnsZone.Zone)
    requires Rfc2136.ReadsZone(z, t.first) && PlannedRun(s, desired, policy, t) && Keyed(desired)
    ensures forall e ::
      e in t.changes.update || e in t.changes.delete ==> Convergence.ClaimedBy(s.owner, z, KeyText(e.Key()))
  {
    forall e | e in t.changes.update || e in t.changes.delete
      ensures Convergence.ClaimedBy(s.owner, z, KeyText(e.Key()))
    {
      ChangedWasCurrent(s, desired, policy, t, e);
      var m :| Claims(s.owner, t.first, m, KeyText(e.Key()));
      Refinement.ReadClaim(s.owner, z, t.first, m, KeyText(e.Key()));
    }
  }

  /** The same for the Cloudflare store. */
  lemma CloudRecordsWereMarked(s: Scope, desired: map<Key, Endpoint>, policy: string, t: Trace, c: CloudStore.Cloud)
    requires Cloudflare.ReadsCloud(c, t.first) && PlannedRun(s, desired, policy, t) && Keyed(desired)
    ensures forall e ::
      e in t.changes.update || e in t.changes.delete ==> CloudRuns.ClaimedTxt(s.owner, c, KeyText(e.Key()))
  {
    forall e | e in t.changes.update || e in t.changes.delete
      ensures CloudRuns.ClaimedTxt(s.owner, c, KeyText(e.Key()))
    {
      ChangedWasCurrent(s, desired, policy, t, e);
      CloudRuns.ClaimRead(s.owner, c, t.first, KeyText(e.Key()));
    }
  }

  lemma ChangedWasCurrent(s: Scope, desired: map<Key, Endpoint>, policy: string, t: Trace, e: Endpoint)
    requires PlannedRun(s, desired, policy, t) && (e in t.changes.update || e in t.changes.delete)
    ensures Claimed(s.owner, t.first, KeyText(e.Key()))
  {
    assert e in t.changes.delete ==> e.Key() in Deletes(desired, Current(s, t.first), policy);
  }

  lemma AddedAreMarkers(r: Owner, ch: Changes, existing: set<string>)
    ensures forall e :: Rfc2136.InChanges(Decorated(r, ch, existing), e) && !Rfc2136.InChanges(ch, e) ==>
      exists f :: Rfc2136.InChanges(ch, f) && e == Marker(r, f)
  {
    MarkersOf(r, ch.create, existing, false);
    MarkersOf(r, ch.delete, existing, true);
    var out := Decorated(r, ch, existing);
    forall e | Rfc2136.InChanges(out, e) && !Rfc2136.InChanges(ch, e)
      ensures exists f :: Rfc2136.InChanges(ch, f) && e == Marker(r, f)
    {
      if e in Markers(r, ch.create, existing, false) {
        var f :| f in ch.create && e == Marker(r, f) && (TxtName(r, f.Key()) in existing) == false;
        assert Rfc2136.InChanges(ch, f);
      } else {
        var f :| f in ch.delete && e == Marker(r, f) && (TxtName(r, f.Key()) in existing) == true;
        assert Rfc2136.InChanges(ch, f);
      }
    }
  }
}
