/** Reconciling into Cloudflare: runs that stop after any number of API calls, and what
    they make of every record. */
module CloudRuns {
  import opened GoText
  import opened Endpoints
  import opened Planning
  import opened Registry
  import opened DnsZone
  import opened ZoneChoice
  import opened Convergence
  import opened CloudStore
  import opened Cloudflare
  import TxtContent

  /** What a reconciler works towards: its registry and filter, its account, the desired records. */
  datatype Goal = Goal(s: Scope, cfg: Account, desired: map<Key, Endpoint>)

  /** One run: the reading the plan was made from, the one existing markers were looked
      up in, the changes, and the provider's index. */
  datatype CloudRun = CloudRun(first: map<Key, Endpoint>, second: map<Key, Endpoint>, changes: Changes,
                               index: RecordIndex)

  ghost function Out(w: Goal, run: CloudRun): Changes {
    Decorated(w.s.owner, run.changes, ExistingIn(w.s.owner, run.second))
  }

  ghost function CallCount(w: Goal, run: CloudRun): nat {
    |Calls(w.cfg, Out(w, run), run.index)|
  }

  /** A `Run` that stops after `j` API calls takes the store from `c` to `c'`. */
  ghost predicate RunsUpTo(w: Goal, policy: string, kept: set<Key>, c: Cloud, run: CloudRun, j: nat, c': Cloud) {
    && ReadsCloud(c, run.first) && ReadsCloud(c, run.second) && Indexes(c, run.index)
    && IsPlanKeeping(w.desired, Current(w.s, run.first), policy, kept, run.changes)
    && j <= CallCount(w, run)
    && c' == if run.changes.Empty() then c else After(c, w.cfg, Out(w, run), run.index, j)
  }

  /** It makes all its calls. */
  ghost predicate RunsFully(w: Goal, policy: string, kept: set<Key>, c: Cloud, run: CloudRun, c': Cloud) {
    RunsUpTo(w, policy, kept, c, run, CallCount(w, run), c')
  }

  // ---- side conditions -----------------------------------------------------------------------

  /** What is asked of the desired records and of the owner id. */
  ghost predicate Hostable(w: Goal) {
    && TxtContent.Printable(w.s.owner.id)
    && (forall k :: k in w.desired ==>
          w.desired[k].Key() == k && k.rtype != TXT && k.name != "" && InDomain(w.s.filter, k.name))
    && (forall k :: k in w.desired ==> w.desired[k].targets != [] && Stable(w.cfg, w.desired[k]))
    && (forall k :: k in w.desired ==>
          Longest(w.cfg.zones, k.name) != "" && Longest(w.cfg.zones, TxtName(w.s.owner, k)) != "")
  }

  function TxtAt(c: Cloud, name: string): map<nat, CfRecord> {
    Sub(c, ZoneKey(RecordKey(TXT, name)))
  }

  predicate OwnRecord(r: Owner, rec: CfRecord) {
    OwnsValue(r, ContentOf(rec))
  }

  ghost predicate OwnTxt(r: Owner, c: Cloud, name: string) {
    exists id :: id in TxtAt(c, name) && OwnRecord(r, TxtAt(c, name)[id])
  }

  ghost predicate ClaimsTxt(r: Owner, c: Cloud, name: string, text: string) {
    OwnTxt(r, c, name) && RealKey(r, name) == Some(text)
  }

  ghost predicate ClaimedTxt(r: Owner, c: Cloud, text: string) {
    exists name :: ClaimsTxt(r, c, name, text)
  }

  ghost predicate UnmixedTxt(r: Owner, c: Cloud) {
    forall name, i, j :: i in TxtAt(c, name) && j in TxtAt(c, name) ==>
      OwnRecord(r, TxtAt(c, name)[i]) == OwnRecord(r, TxtAt(c, name)[j])
  }

  /** Only own markers at the marker names of desired keys. */
  ghost predicate MarkersOwn(w: Goal, c: Cloud) {
    forall k, id :: k in w.desired && id in TxtAt(c, TxtName(w.s.owner, k)) ==>
      OwnRecord(w.s.owner, TxtAt(c, TxtName(w.s.owner, k))[id])
  }

  /** All readings agree on whether `e` needs an update: the order of a listing does not matter. */
  ghost predicate Decided(e: Endpoint, sub: map<nat, CfRecord>) {
    forall g, h :: ReadsSub(sub, g) && ReadsSub(sub, h) ==> (Same(e, g) <==> Same(e, h))
  }

  /** What a run asks of the store: no TXT name mixes own markers with other values, nothing foreign
      sits at the marker name of a desired key, and the records of a desired key read one way. */
  ghost predicate Tidy(w: Goal, c: Cloud) {
    && c.Valid() && UnmixedTxt(w.s.owner, c) && MarkersOwn(w, c)
    && forall k :: k in w.desired ==> Decided(w.desired[k], Sub(c, ZoneKey(k)))
  }

  ghost predicate ClaimedKey(w: Goal, c: Cloud, k: Key) {
    ClaimedTxt(w.s.owner, c, KeyText(k))
  }

  /** Every desired key that has records is claimed: nothing foreign sits at a desired key. */
  ghost predicate PresentAreClaimed(w: Goal, c: Cloud) {
    forall k :: k in w.desired && Sub(c, ZoneKey(k)) != map[] ==> ClaimedKey(w, c, k)
  }

  /** The store an undisturbed instance starts from and returns to. */
  ghost predicate CleanCloud(w: Goal, c: Cloud) {
    && c.Valid() && UnmixedTxt(w.s.owner, c) && MarkersOwn(w, c) && PresentAreClaimed(w, c)
    && forall k :: k in w.desired ==> Uniform(Sub(c, ZoneKey(k)))
  }

  /** The store a cut run can leave: the records of a desired key agree on TTL and proxied flag, and
      are claimed or were all written for it. */
  ghost predicate Recoverable(w: Goal, c: Cloud) {
    && c.Valid() && UnmixedTxt(w.s.owner, c) && MarkersOwn(w, c)
    && forall k :: k in w.desired ==> RecoverableAt(w, c, k)
  }

  ghost predicate RecoverableAt(w: Goal, c: Cloud, k: Key)
    requires k in w.desired
  {
    Uniform(Sub(c, ZoneKey(k))) && (ClaimedKey(w, c, k) || PartOf(w.cfg, w.desired[k], Sub(c, ZoneKey(k))))
  }

  lemma CleanIsRecoverable(w: Goal, c: Cloud)
    requires CleanCloud(w, c)
    ensures Recoverable(w, c)
  {
  }

  lemma UniformIsDecided(e: Endpoint, sub: map<nat, CfRecord>)
    requires Uniform(sub)
    ensures Decided(e, sub)
  {
    forall g, h | ReadsSub(sub, g) && ReadsSub(sub, h) ensures Same(e, g) <==> Same(e, h) {
      UniformReadingsAgree(sub, e, g, h);
    }
  }

  lemma RecoverableIsTidy(w: Goal, c: Cloud)
    requires Recoverable(w, c)
    ensures Tidy(w, c)
  {
    forall k | k in w.desired ensures Decided(w.desired[k], Sub(c, ZoneKey(k))) {
      UniformIsDecided(w.desired[k], Sub(c, ZoneKey(k)));
    }
  }

  /** A store without records meets them all. */
  lemma EmptyStoreIsClean(w: Goal)
    ensures CleanCloud(w, Cloud(map[], 0))
  {
    assert forall k :: Sub(Cloud(map[], 0), k) == map[];
  }

  lemma NoFinalDot(s: string)
    requires s != "" && s[|s| - 1] != '.'
    ensures Undotted(s) == s
  {
    assert s[|s| - 1..] == [s[|s| - 1]];
  }

  lemma InsideZone(zone: string, head: string)
    ensures Within(head + "." + zone, zone)
  {
    var name := head + "." + zone;
    assert name[|name| - |"." + zone|..] == "." + zone;
  }

  lemma ListedZoneFound(zones: seq<string>, name: string, z: string)
    requires z in zones && Undotted(z) == z && Undotted(name) == name && Within(name, z) && z != ""
    ensures Longest(zones, name) != ""
  {
    LongestIsLongest(zones, name);
  }

  /** A name that ends in a dot and a listed zone has an accessible zone. */
  lemma HasZone(zone: string, head: string)
    requires zone != "" && zone[|zone| - 1] != '.'
    ensures Longest([zone], head + "." + zone) != ""
  {
    var name := head + "." + zone;
    assert name[|name| - 1] == zone[|zone| - 1];
    NoFinalDot(zone);
    NoFinalDot(name);
    InsideZone(zone, head);
    ListedZoneFound([zone], name, zone);
  }

  /** One address under an accessible zone can be hosted, whatever the prefix and the owner id in printable text. */
  lemma ExampleIsHostable(r: Owner, zone: string, target: string)
    requires TxtContent.Printable(r.id) && zone != "" && zone[|zone| - 1] != '.'
    ensures var e := Endpoint("app." + zone, [target], A, 300, map[]);
      Hostable(Goal(Scope(r, []), Account([zone], false), map[e.Key() := e]))
  {
    var e := Endpoint("app." + zone, [target], A, 300, map[]);
    HasZone(zone, "app");
    HasZone(zone, r.prefix + ToLower("A") + "-app");
    assert "app" + "." + zone == e.name;
    assert (r.prefix + ToLower("A") + "-app") + "." + zone == TxtName(r, e.Key());
  }

  // ---- what a run reads ------------------------------------------------------------------------

  lemma ReadingFirst(sub: map<nat, CfRecord>, h: Endpoint) returns (id: nat)
    requires ReadsSub(sub, h)
    ensures id in sub && h.targets != [] && h.targets[0] == ContentOf(sub[id])
  {
    var ids :| ReadsIn(sub, ids, h);
    id := ids[0];
    assert id in ids;
  }

  /** A claim that is read is in the store. */
  lemma ClaimRead(r: Owner, c: Cloud, m: map<Key, Endpoint>, text: string)
    requires ReadsCloud(c, m) && Claimed(r, m, text)
    ensures ClaimedTxt(r, c, text)
  {
    var t :| Claims(r, m, t, text);
    assert t == RecordKey(TXT, t.name);
    var id := ReadingFirst(TxtAt(c, t.name), m[t]);
    assert OwnRecord(r, TxtAt(c, t.name)[id]);
    assert ClaimsTxt(r, c, t.name, text);
  }

  lemma ReadOwn(r: Owner, c: Cloud, m: map<Key, Endpoint>, name: string)
    requires UnmixedTxt(r, c) && ReadsCloud(c, m)
    ensures (RecordKey(TXT, name) in m && Owns(r, m[RecordKey(TXT, name)])) <==> OwnTxt(r, c, name)
  {
    var k := RecordKey(TXT, name);
    if k in m {
      var id := ReadingFirst(TxtAt(c, name), m[k]);
      assert Owns(r, m[k]) <==> OwnRecord(r, TxtAt(c, name)[id]);
    }
  }

  lemma ReadClaimed(r: Owner, c: Cloud, m: map<Key, Endpoint>, text: string)
    requires UnmixedTxt(r, c) && ReadsCloud(c, m)
    ensures Claimed(r, m, text) <==> ClaimedTxt(r, c, text)
  {
    if Claimed(r, m, text) {
      var t :| Claims(r, m, t, text);
      assert t == RecordKey(TXT, t.name);
      ReadOwn(r, c, m, t.name);
      assert ClaimsTxt(r, c, t.name, text);
    }
    if ClaimedTxt(r, c, text) {
      var name :| ClaimsTxt(r, c, name, text);
      ReadOwn(r, c, m, name);
      assert Claims(r, m, RecordKey(TXT, name), text);
    }
  }

  lemma ReadExisting(r: Owner, c: Cloud, m: map<Key, Endpoint>, name: string)
    requires UnmixedTxt(r, c) && ReadsCloud(c, m)
    ensures name in ExistingIn(r, m) <==> OwnTxt(r, c, name)
  {
    ReadOwn(r, c, m, name);
    if name in ExistingIn(r, m) {
      var t :| t in m && t.rtype == TXT && Owns(r, m[t]) && t.name == name;
      assert t == RecordKey(TXT, name);
    }
    if OwnTxt(r, c, name) {
      assert RecordKey(TXT, name).name == name;
    }
  }

  /** In scope, owned and present. */
  ghost predicate Present(s: Scope, c: Cloud, k: Key) {
    Sub(c, ZoneKey(k)) != map[] && k.rtype != TXT && ClaimedTxt(s.owner, c, KeyText(k)) && InDomain(s.filter, k.name)
  }

  lemma ReadCurrent(s: Scope, c: Cloud, m: map<Key, Endpoint>, k: Key)
    requires UnmixedTxt(s.owner, c) && ReadsCloud(c, m)
    ensures k in Current(s, m) <==> Present(s, c, k)
    ensures k in Current(s, m) ==> Current(s, m)[k] == m[k]
  {
    ReadClaimed(s.owner, c, m, KeyText(k));
  }

  lemma CurrentShape(s: Scope, c: Cloud, m: map<Key, Endpoint>)
    requires ReadsCloud(c, m)
    ensures Keyed(Current(s, m)) && forall k :: k in Current(s, m) ==> k.rtype != TXT && Current(s, m)[k].targets != []
  {
    forall k | k in Current(s, m) ensures m[k].targets != [] {
      var id := ReadingFirst(Sub(c, ZoneKey(k)), m[k]);
    }
  }

  // ---- what a run writes -------------------------------------------------------------------------

  /** A change set on its way to the store: what it was planned from and what was read. */
  datatype Job = Job(w: Goal, c: Cloud, m: map<Key, Endpoint>, ch: Changes, existing: set<string>, index: RecordIndex) {
    function Out(): Changes {
      Decorated(w.s.owner, ch, existing)
    }

    function Length(): nat {
      |Calls(w.cfg, Out(), index)|
    }

    ghost predicate Planned() {
      && Hostable(w) && Tidy(w, c) && Drawn(w.desired, ch)
      && ReadsCloud(c, m) && Indexes(c, index)
      && (forall name :: name in existing <==> OwnTxt(w.s.owner, c, name))
      && (forall k :: k in w.desired ==> PlannedAt(k))
    }

    /** Desired keys without owned records are created, owned ones that read differently updated. */
    ghost predicate PlannedAt(k: Key)
      requires k in w.desired
    {
      && (w.desired[k] in ch.create <==> !Present(w.s, c, k))
      && (w.desired[k] in ch.update <==> Present(w.s, c, k) && k in m && !Same(w.desired[k], m[k]))
    }

    /** `j` lies past the create phase. */
    ghost predicate Past(j: nat) {
      CreatePhase(w.cfg, Out()) <= j <= Length()
    }

    /** The store after the first `j` calls. */
    ghost function After(j: nat): Cloud
      requires j <= Length()
    {
      Cloudflare.After(c, w.cfg, Out(), index, j)
    }

    ghost predicate Claims(c': Cloud, k: Key) {
      ClaimedKey(w, c', k)
    }
  }

  ghost function JobOf(w: Goal, c: Cloud, run: CloudRun): Job {
    Job(w, c, run.first, run.changes, ExistingIn(w.s.owner, run.second), run.index)
  }

  lemma DesiredPlanned(w: Goal, policy: string, kept: set<Key>, c: Cloud, run: CloudRun, k: Key)
    requires Hostable(w) && Tidy(w, c) && ReadsCloud(c, run.first) && k in w.desired
    requires IsPlanKeeping(w.desired, Current(w.s, run.first), policy, kept, run.changes)
    ensures JobOf(w, c, run).PlannedAt(k)
  {
    var cur := Current(w.s, run.first);
    ReadCurrent(w.s, c, run.first, k);
    assert w.desired[k].Key() == k;
    assert k in Creates(w.desired, cur) <==> k !in cur;
    assert k in Updates(w.desired, cur) <==> k in cur && !Same(w.desired[k], run.first[k]);
  }

  lemma RunIsPlanned(w: Goal, policy: string, kept: set<Key>, c: Cloud, run: CloudRun, j: nat, c': Cloud)
    requires Hostable(w) && Tidy(w, c) && RunsUpTo(w, policy, kept, c, run, j, c')
    ensures JobOf(w, c, run).Planned()
  {
    CurrentShape(w.s, c, run.first);
    KeepingIsDrawn(w.desired, Current(w.s, run.first), policy, kept, run.changes);
    forall name ensures name in ExistingIn(w.s.owner, run.second) <==> OwnTxt(w.s.owner, c, name) {
      ReadExisting(w.s.owner, c, run.second, name);
    }
    forall k | k in w.desired ensures JobOf(w, c, run).PlannedAt(k) {
      DesiredPlanned(w, policy, kept, c, run, k);
    }
  }

  /** `e` is the marker of an endpoint of `es` whose marker is, or is not, among the existing ones. */
  ghost predicate MarkerOf(r: Owner, es: seq<Endpoint>, existing: set<string>, present: bool, e: Endpoint) {
    exists f :: f in es && e == Marker(r, f) && (TxtName(r, f.Key()) in existing) == present
  }

  /** The data records among decorated changes are the undecorated ones; the rest are markers. */
  lemma DecoratedShape(r: Owner, ch: Changes, existing: set<string>)
    requires NoMarkers(ch)
    ensures var out := Decorated(r, ch, existing);
      && (forall e :: e in ch.create ==> e in out.create) && (forall e :: e in ch.delete ==> e in out.delete)
      && out.update == ch.update
      && (forall e :: e in out.create ==> e in ch.create || MarkerOf(r, ch.create, existing, false, e))
      && (forall e :: e in out.delete ==> e in ch.delete || MarkerOf(r, ch.delete, existing, true, e))
  {
    MarkersOf(r, ch.create, existing, false);
    MarkersOf(r, ch.delete, existing, true);
  }

  lemma DrawnApplies(w: Goal, c: Cloud, ch: Changes, existing: set<string>, index: RecordIndex)
    requires Hostable(w) && c.Valid() && Indexes(c, index) && Drawn(w.desired, ch)
    ensures Applicable(c, w.cfg, Decorated(w.s.owner, ch, existing), index)
  {
    DecoratedIsKeyDisjoint(w.s.owner, ch, existing);
    DrawnResolves(w, ch, existing);
  }

  /** Every name a run has to create or rewrite has an accessible zone. */
  lemma DrawnResolves(w: Goal, ch: Changes, existing: set<string>)
    requires Hostable(w) && Drawn(w.desired, ch)
    ensures Resolves(w.cfg, Decorated(w.s.owner, ch, existing))
  {
    var out := Decorated(w.s.owner, ch, existing);
    DecoratedShape(w.s.owner, ch, existing);
    forall e | e in out.create || e in out.update ensures Longest(w.cfg.zones, e.name) != "" {
      if e in ch.create || e in ch.update {
        assert e.Key().name == e.name;
      } else {
        var f :| f in ch.create && e == Marker(w.s.owner, f) && (TxtName(w.s.owner, f.Key()) in existing) == false;
        assert f.Key() in w.desired;
      }
    }
  }

  lemma OutApplies(g: Job)
    requires g.Planned()
    ensures Applicable(g.c, g.w.cfg, g.Out(), g.index)
  {
    DrawnApplies(g.w, g.c, g.ch, g.existing, g.index);
  }

  /** The change set names no endpoint at `l`. */
  ghost predicate Unnamed(ch: Changes, l: RRKey) {
    forall e :: e in ch.create || e in ch.update || e in ch.delete ==> ZoneKey(e.Key()) != l
  }

  // ---- counting ------------------------------------------------------------------------------------

  lemma {:induction false} EnumerationLength(ids: seq<nat>, keys: set<nat>)
    requires (forall id :: id in ids <==> id in keys) && forall i, j :: 0 <= i < j < |ids| ==> ids[i] != ids[j]
    ensures |ids| == |keys|
  {
    if ids == [] {
      assert keys == {};
    } else {
      var init, last := ids[..|ids| - 1], ids[|ids| - 1];
      assert ids == init + [last];
      assert forall i :: 0 <= i < |init| ==> init[i] == ids[i] != last;
      EnumerationLength(init, keys - {last});
    }
  }

  lemma {:induction false} SpanSize(n: nat, t: nat)
    ensures |Span(n, t)| == t
  {
    if t > 0 { SpanSize(n, t - 1); }
  }

  lemma MoreThan(a: set<nat>, b: set<nat>)
    requires a != {} && a !! b
    ensures |a + b| > |b|
  {
    assert (a + b) - b == a && |a| > 0;
  }

  lemma MergedKeys(sub: map<nat, CfRecord>, n: nat, rs: seq<CfRecord>)
    requires sub != map[] && forall id :: id in sub ==> id < n
    ensures |(sub + FreshRecords(n, rs)).Keys| > |rs|
  {
    SpanSize(n, |rs|);
    var id :| id in sub;
    assert id in sub.Keys;
    assert (sub + FreshRecords(n, rs)).Keys == sub.Keys + Span(n, |rs|);
    MoreThan(sub.Keys, Span(n, |rs|));
  }

  /** Records that were there before a create stay, so the endpoint reads back with too many targets. */
  lemma ReadsTooMuch(sub: map<nat, CfRecord>, n: nat, rs: seq<CfRecord>, h: Endpoint)
    requires sub != map[] && (forall id :: id in sub ==> id < n) && ReadsSub(sub + FreshRecords(n, rs), h)
    ensures |h.targets| > |rs|
  {
    var ids :| ReadsIn(sub + FreshRecords(n, rs), ids, h);
    EnumerationLength(ids, (sub + FreshRecords(n, rs)).Keys);
    MergedKeys(sub, n, rs);
  }

  lemma SameLength(e: Endpoint, h: Endpoint)
    requires Same(e, h)
    ensures |e.targets| == |h.targets|
  {
    assert |multiset(e.targets)| == |multiset(h.targets)|;
  }

  // ---- data records --------------------------------------------------------------------------------

  lemma UntouchedUnnamed(g: Job, k: Key)
    requires g.Planned() && k.rtype != TXT && !Has(g.ch.create, k) && !Has(g.ch.update, k) && !Has(g.ch.delete, k)
    ensures Unnamed(g.Out(), ZoneKey(k))
  {
    DecoratedShape(g.w.s.owner, g.ch, g.existing);
    assert forall e: Endpoint :: ZoneKey(e.Key()) == ZoneKey(k) ==> e.Key() == k;
  }

  /** A data key that the plan does not name keeps its records. */
  lemma UntouchedLeft(g: Job, j: nat, k: Key)
    requires g.Planned() && j <= g.Length()
    requires k.rtype != TXT && !Has(g.ch.create, k) && !Has(g.ch.update, k) && !Has(g.ch.delete, k)
    ensures Sub(g.After(j), ZoneKey(k)) == Sub(g.c, ZoneKey(k))
  {
    OutApplies(g);
    UntouchedUnnamed(g, k);
    AtOthers(g.c, g.w.cfg, g.Out(), g.index, j, ZoneKey(k));
  }

  lemma DesiredHas(g: Job, k: Key)
    requires g.Planned() && k in g.w.desired
    ensures Has(g.ch.create, k) <==> g.w.desired[k] in g.ch.create
    ensures Has(g.ch.update, k) <==> g.w.desired[k] in g.ch.update
    ensures !Has(g.ch.delete, k) && g.w.desired[k].Key() == k
  {
  }

  /** A created key has gained some of its records, all of them past the create phase. */
  lemma CreatedLeft(g: Job, j: nat, e: Endpoint) returns (n: nat, t: nat)
    requires g.Planned() && j <= g.Length() && e in g.Out().create
    ensures n >= g.c.next && t <= |e.targets| && (g.Past(j) ==> t == |e.targets|)
    ensures Sub(g.After(j), ZoneKey(e.Key())) ==
      Sub(g.c, ZoneKey(e.Key())) + FreshRecords(n, RecordsFor(g.w.cfg, e)[..t])
  {
    OutApplies(g);
    n, t := AtCreate(g.c, g.w.cfg, g.Out(), g.index, j, e);
  }

  lemma PartsJoin(cfg: Account, e: Endpoint, a: map<nat, CfRecord>, b: map<nat, CfRecord>)
    requires PartOf(cfg, e, a) && PartOf(cfg, e, b)
    ensures PartOf(cfg, e, a + b)
  {
  }

  lemma EmptyIsPart(cfg: Account, e: Endpoint)
    ensures PartOf(cfg, e, map[])
  {
  }

  lemma CreatedIsPart(g: Job, j: nat, k: Key)
    requires g.Planned() && j <= g.Length() && k in g.w.desired && g.w.desired[k] in g.ch.create
    requires PartOf(g.w.cfg, g.w.desired[k], Sub(g.c, ZoneKey(k)))
    ensures PartOf(g.w.cfg, g.w.desired[k], Sub(g.After(j), ZoneKey(k)))
  {
    var e := g.w.desired[k];
    DesiredHas(g, k);
    var n, t := CreatedLeft(g, j, e);
    FreshIsPart(g.w.cfg, e, n, t);
    PartsJoin(g.w.cfg, e, Sub(g.c, ZoneKey(k)), FreshRecords(n, RecordsFor(g.w.cfg, e)[..t]));
  }

  lemma UpdatedUniform(g: Job, j: nat, k: Key)
    requires g.Planned() && j <= g.Length() && k in g.w.desired && g.w.desired[k] in g.ch.update
    requires Uniform(Sub(g.c, ZoneKey(k)))
    ensures Uniform(Sub(g.After(j), ZoneKey(k)))
  {
    var e, sub' := g.w.desired[k], Sub(g.After(j), ZoneKey(k));
    OutApplies(g);
    DesiredHas(g, k);
    AtUpdate(g.c, g.w.cfg, g.Out(), g.index, j, e);
    if PartOf(g.w.cfg, e, sub') { PartIsUniform(g.w.cfg, e, sub'); }
  }

  /** After all calls, a desired record reads back as asked for exactly when nothing unclaimed was in its place. */
  lemma DesiredReadsBack(g: Job, k: Key, m': map<Key, Endpoint>)
    requires g.Planned() && k in g.w.desired && ReadsCloud(g.After(g.Length()), m')
    ensures k in m'
    ensures Same(g.w.desired[k], m'[k]) <==> Sub(g.c, ZoneKey(k)) == map[] || g.Claims(g.c, k)
  {
    var e := g.w.desired[k];
    DesiredHas(g, k);
    assert g.PlannedAt(k);
    if e in g.ch.update {
      OutApplies(g);
      WrittenHolds(g.c, g.w.cfg, g.Out(), g.index, e);
      HeldReadsBack(g.After(g.Length()), g.w.cfg, e, m');
    } else if e in g.ch.create {
      CreatedReadsBack(g, k, m');
    } else {
      UntouchedLeft(g, g.Length(), k);
    }
  }

  lemma CreatedReadsBack(g: Job, k: Key, m': map<Key, Endpoint>)
    requires g.Planned() && k in g.w.desired && ReadsCloud(g.After(g.Length()), m') && g.w.desired[k] in g.ch.create
    ensures k in m' && (Same(g.w.desired[k], m'[k]) <==> Sub(g.c, ZoneKey(k)) == map[])
  {
    var e := g.w.desired[k];
    DesiredHas(g, k);
    if Sub(g.c, ZoneKey(k)) == map[] {
      OutApplies(g);
      WrittenHolds(g.c, g.w.cfg, g.Out(), g.index, e);
      HeldReadsBack(g.After(g.Length()), g.w.cfg, e, m');
    } else {
      var n := CreatedOnTop(g, k);
      NotEmptied(Sub(g.c, ZoneKey(k)), FreshRecords(n, RecordsFor(g.w.cfg, e)));
      ReadsTooMuch(Sub(g.c, ZoneKey(k)), n, RecordsFor(g.w.cfg, e), m'[k]);
      if Same(e, m'[k]) { SameLength(e, m'[k]); }
    }
  }

  lemma NotEmptied(a: map<nat, CfRecord>, b: map<nat, CfRecord>)
    requires a != map[]
    ensures a + b != map[]
  {
    var id :| id in a;
    assert id in a + b;
  }

  lemma CreatedOnTop(g: Job, k: Key) returns (n: nat)
    requires g.Planned() && k in g.w.desired && g.w.desired[k] in g.ch.create
    ensures forall id :: id in g.c.recs ==> id < n
    ensures Sub(g.After(g.Length()), ZoneKey(k)) ==
      Sub(g.c, ZoneKey(k)) + FreshRecords(n, RecordsFor(g.w.cfg, g.w.desired[k]))
  {
    OutApplies(g);
    DesiredHas(g, k);
    n := AtFullCreate(g.c, g.w.cfg, g.Out(), g.index, g.w.desired[k]);
  }

  /** After all calls the records of a desired key read one way, whatever they were. */
  lemma DesiredDecided(g: Job, k: Key)
    requires g.Planned() && k in g.w.desired
    ensures Decided(g.w.desired[k], Sub(g.After(g.Length()), ZoneKey(k)))
  {
    var e, sub' := g.w.desired[k], Sub(g.After(g.Length()), ZoneKey(k));
    DesiredHas(g, k);
    if e in g.ch.update || (e in g.ch.create && Sub(g.c, ZoneKey(k)) == map[]) {
      OutApplies(g);
      WrittenHolds(g.c, g.w.cfg, g.Out(), g.index, e);
      HoldsIsPart(g.w.cfg, e, sub');
      PartIsUniform(g.w.cfg, e, sub');
      UniformIsDecided(e, sub');
    } else if e in g.ch.create {
      var n := CreatedOnTop(g, k);
      TooMuchIsDecided(e, Sub(g.c, ZoneKey(k)), n, RecordsFor(g.w.cfg, e));
    } else {
      UntouchedLeft(g, g.Length(), k);
    }
  }

  lemma TooMuchIsDecided(e: Endpoint, sub: map<nat, CfRecord>, n: nat, rs: seq<CfRecord>)
    requires sub != map[] && (forall id :: id in sub ==> id < n) && |rs| == |e.targets|
    ensures Decided(e, sub + FreshRecords(n, rs))
  {
    forall h | ReadsSub(sub + FreshRecords(n, rs), h) ensures !Same(e, h) {
      ReadsTooMuch(sub, n, rs, h);
      if Same(e, h) { SameLength(e, h); }
    }
  }

  /** Other data records only disappear, and only those of the delete list. */
  lemma OthersLeft(g: Job, j: nat, k: Key)
    requires g.Planned() && j <= g.Length() && k !in g.w.desired && k.rtype != TXT
    ensures var sub, sub' := Sub(g.c, ZoneKey(k)), Sub(g.After(j), ZoneKey(k));
      if Has(g.ch.delete, k) then Fewer(sub', sub) && (j == g.Length() ==> sub' == map[])
      else sub' == sub
  {
    if Has(g.ch.delete, k) {
      var e :| e in g.ch.delete && e.Key() == k;
      OutApplies(g);
      DecoratedShape(g.w.s.owner, g.ch, g.existing);
      AtDelete(g.c, g.w.cfg, g.Out(), g.index, j, e);
    } else {
      UntouchedLeft(g, j, k);
    }
  }

  // ---- markers -----------------------------------------------------------------------------------------

  lemma MarkerWrapped(r: Owner)
    requires TxtContent.Printable(r.id)
    ensures TxtContent.Printable(MarkerValue(r)) && !TxtContent.Wrapped(MarkerValue(r))
  {
    assert MarkerValue(r)[0] == HERITAGE[0] == 'h';
    forall ch | ch in MarkerValue(r) ensures ' ' <= ch <= '~' {
      assert ch in HERITAGE + "," + OWNER_TAG || ch in r.id;
      assert TxtContent.Printable(HERITAGE + "," + OWNER_TAG);
    }
  }

  /** A marker the run creates is claimed by its own instance. */
  lemma CreatedMarkerIsOwn(cfg: Account, r: Owner, f: Endpoint, n: nat)
    requires TxtContent.Printable(r.id)
    ensures var sub := FreshRecords(n, RecordsFor(cfg, Marker(r, f)));
      n in sub && forall id :: id in sub ==> OwnRecord(r, sub[id])
  {
    var m := Marker(r, f);
    var sub := FreshRecords(n, RecordsFor(cfg, m));
    MarkerWrapped(r);
    OwnsItsMarkers(r);
    assert sub[n] == RecordFor(cfg, m, m.targets[0]);
    ContentBack(cfg, m, m.targets[0], sub[n]);
  }

  /** The run creates, or deletes, the marker at `name`. */
  ghost predicate Marks(g: Job, name: string) {
    name !in g.existing && exists f :: f in g.ch.create && name == TxtName(g.w.s.owner, f.Key())
  }

  ghost predicate Unmarks(g: Job, name: string) {
    name in g.existing && exists f :: f in g.ch.delete && name == TxtName(g.w.s.owner, f.Key())
  }

  ghost predicate AllOwn(r: Owner, sub: map<nat, CfRecord>) {
    forall id :: id in sub ==> OwnRecord(r, sub[id])
  }

  /** The three ways the TXT records at a name can have changed, wherever the run stops. */
  lemma TxtLeft(g: Job, j: nat, name: string)
    requires g.Planned() && j <= g.Length()
    ensures var sub, sub' := TxtAt(g.c, name), TxtAt(g.After(j), name);
      if Marks(g, name) then AllOwn(g.w.s.owner, sub') && sub == map[] && (g.Past(j) ==> sub' != map[])
      else if Unmarks(g, name) then Fewer(sub', sub) && AllOwn(g.w.s.owner, sub)
      else sub' == sub
  {
    if Marks(g, name) {
      TxtMarked(g, j, name);
    } else if Unmarks(g, name) {
      TxtUnmarked(g, j, name);
    } else {
      TxtUntouched(g, j, name);
    }
  }

  lemma EmptyOrOwn(r: Owner, c: Cloud, name: string)
    requires AllOwn(r, TxtAt(c, name))
    ensures TxtAt(c, name) == map[] || OwnTxt(r, c, name)
  {
    if TxtAt(c, name) != map[] {
      var id :| id in TxtAt(c, name);
    }
  }

  lemma MarkerPlaceFree(g: Job, f: Endpoint)
    requires g.Planned() && f in g.ch.create && TxtName(g.w.s.owner, f.Key()) !in g.existing
    ensures Marker(g.w.s.owner, f) in g.Out().create && TxtAt(g.c, TxtName(g.w.s.owner, f.Key())) == map[]
  {
    var name := TxtName(g.w.s.owner, f.Key());
    MarkersOf(g.w.s.owner, g.ch.create, g.existing, false);
    assert f.Key() in g.w.desired;
    assert AllOwn(g.w.s.owner, TxtAt(g.c, name));
    EmptyOrOwn(g.w.s.owner, g.c, name);
  }

  lemma TxtMarked(g: Job, j: nat, name: string)
    requires g.Planned() && j <= g.Length() && Marks(g, name)
    ensures AllOwn(g.w.s.owner, TxtAt(g.After(j), name)) && TxtAt(g.c, name) == map[]
    ensures g.Past(j) ==> TxtAt(g.After(j), name) != map[]
  {
    var f :| f in g.ch.create && name == TxtName(g.w.s.owner, f.Key());
    var m := Marker(g.w.s.owner, f);
    MarkerPlaceFree(g, f);
    var n, t := CreatedLeft(g, j, m);
    EmptyPlus(FreshRecords(n, RecordsFor(g.w.cfg, m)[..t]));
    MarkerPart(g.w.cfg, g.w.s.owner, f, n, t);
  }

  lemma MarkerPart(cfg: Account, r: Owner, f: Endpoint, n: nat, t: nat)
    requires TxtContent.Printable(r.id) && t <= 1
    ensures AllOwn(r, FreshRecords(n, RecordsFor(cfg, Marker(r, f))[..t]))
    ensures t == 1 ==> FreshRecords(n, RecordsFor(cfg, Marker(r, f))[..t]) != map[]
  {
    var rs := RecordsFor(cfg, Marker(r, f));
    if t == 1 {
      CreatedMarkerIsOwn(cfg, r, f, n);
      assert rs[..1] == rs;
    }
  }

  lemma TxtUnmarked(g: Job, j: nat, name: string)
    requires g.Planned() && j <= g.Length() && Unmarks(g, name)
    ensures Fewer(TxtAt(g.After(j), name), TxtAt(g.c, name)) && AllOwn(g.w.s.owner, TxtAt(g.c, name))
  {
    var f :| f in g.ch.delete && name == TxtName(g.w.s.owner, f.Key());
    OutApplies(g);
    MarkersOf(g.w.s.owner, g.ch.delete, g.existing, true);
    assert Marker(g.w.s.owner, f) in g.Out().delete;
    AtDelete(g.c, g.w.cfg, g.Out(), g.index, j, Marker(g.w.s.owner, f));
    assert OwnTxt(g.w.s.owner, g.c, name);
  }

  lemma TxtUntouched(g: Job, j: nat, name: string)
    requires g.Planned() && j <= g.Length() && !Marks(g, name) && !Unmarks(g, name)
    ensures TxtAt(g.After(j), name) == TxtAt(g.c, name)
  {
    var l := ZoneKey(RecordKey(TXT, name));
    OutApplies(g);
    DecoratedShape(g.w.s.owner, g.ch, g.existing);
    assert forall e: Endpoint :: ZoneKey(e.Key()) == l ==> e.rtype == TXT && e.name == name;
    assert Unnamed(g.Out(), l);
    AtOthers(g.c, g.w.cfg, g.Out(), g.index, j, l);
  }

  /** A run that does not delete `k` keeps what claims it. */
  lemma ClaimKept(g: Job, j: nat, k: Key)
    requires g.Planned() && j <= g.Length() && g.Claims(g.c, k) && !Has(g.ch.delete, k)
    ensures g.Claims(g.After(j), k)
  {
    var r := g.w.s.owner;
    var name :| ClaimsTxt(r, g.c, name, KeyText(k));
    forall f | f in g.ch.delete ensures name != TxtName(r, f.Key()) {
      RealKeyOfTxtName(r, f.Key());
      KeyTextInjective(k, f.Key());
    }
    TxtLeft(g, j, name);
    assert ClaimsTxt(r, g.After(j), name, KeyText(k));
  }

  /** Past the create phase every desired key is claimed, whatever the store was. */
  lemma DesiredClaimed(g: Job, j: nat, k: Key)
    requires g.Planned() && g.Past(j) && k in g.w.desired
    ensures g.Claims(g.After(j), k)
  {
    DesiredHas(g, k);
    if g.Claims(g.c, k) {
      ClaimKept(g, j, k);
    } else {
      NewlyClaimed(g, j, k);
    }
  }

  lemma NewlyClaimed(g: Job, j: nat, k: Key)
    requires g.Planned() && g.Past(j) && k in g.w.desired && !g.Claims(g.c, k)
    ensures g.Claims(g.After(j), k)
  {
    var r, own := g.w.s.owner, TxtName(g.w.s.owner, k);
    DesiredHas(g, k);
    assert g.PlannedAt(k) && g.w.desired[k] in g.ch.create;
    RealKeyOfTxtName(r, k);
    assert !ClaimsTxt(r, g.c, own, KeyText(k));
    assert Marks(g, own);
    TxtMarked(g, j, own);
    EmptyOrOwn(r, g.After(j), own);
    assert ClaimsTxt(r, g.After(j), own, KeyText(k));
  }

  /** A TXT record was there before, or is an own marker of a desired key. */
  lemma TxtOrigin(g: Job, j: nat, name: string, id: nat)
    requires g.Planned() && j <= g.Length() && id in TxtAt(g.After(j), name)
    ensures var rec := TxtAt(g.After(j), name)[id];
      || (id in TxtAt(g.c, name) && TxtAt(g.c, name)[id] == rec)
      || (OwnRecord(g.w.s.owner, rec) && exists k :: k in g.w.desired && name == TxtName(g.w.s.owner, k))
  {
    TxtLeft(g, j, name);
    if Marks(g, name) {
      var f :| f in g.ch.create && name == TxtName(g.w.s.owner, f.Key());
      assert f.Key() in g.w.desired;
    }
  }

  lemma ClaimsNotNew(g: Job, j: nat, k: Key)
    requires g.Planned() && j <= g.Length() && k !in g.w.desired && g.Claims(g.After(j), k)
    ensures g.Claims(g.c, k)
  {
    var r, c' := g.w.s.owner, g.After(j);
    var name :| ClaimsTxt(r, c', name, KeyText(k));
    var id :| id in TxtAt(c', name) && OwnRecord(r, TxtAt(c', name)[id]);
    TxtOrigin(g, j, name, id);
    forall l | l in g.w.desired ensures name != TxtName(r, l) {
      RealKeyOfTxtName(r, l);
      KeyTextInjective(k, l);
    }
    assert ClaimsTxt(r, g.c, name, KeyText(k));
  }

  lemma MarkersStayOwn(g: Job, j: nat)
    requires g.Planned() && j <= g.Length()
    ensures MarkersOwn(g.w, g.After(j)) && UnmixedTxt(g.w.s.owner, g.After(j))
  {
    var r, c' := g.w.s.owner, g.After(j);
    forall k, id | k in g.w.desired && id in TxtAt(c', TxtName(r, k))
      ensures OwnRecord(r, TxtAt(c', TxtName(r, k))[id])
    {
      TxtOrigin(g, j, TxtName(r, k), id);
    }
    forall name, i, h | i in TxtAt(c', name) && h in TxtAt(c', name)
      ensures OwnRecord(r, TxtAt(c', name)[i]) == OwnRecord(r, TxtAt(c', name)[h])
    {
      TxtOrigin(g, j, name, i);
      TxtOrigin(g, j, name, h);
    }
  }

  // ---- order of the deletes -----------------------------------------------------------------------------

  lemma ProgressMonotone(blocks: seq<Block>, p: nat, q: nat, j: nat)
    requires p < q < |blocks| && Progress(blocks, q, j) > 0
    ensures Progress(blocks, p, j) == |blocks[p].calls|
  {
    assert blocks[..q] == blocks[..p + 1] + blocks[p + 1..q];
    FlattenAppend(blocks[..p + 1], blocks[p + 1..q]);
    ProgressFull(blocks, p, p + 1, j);
  }

  lemma DeleteBlockIs(cfg: Account, ch: Changes, index: RecordIndex, p: nat)
    requires p < |ch.delete|
    ensures DeletePlace(ch, p) < |Blocks(cfg, ch, index)|
    ensures var k := ZoneKey(ch.delete[p].Key());
      Blocks(cfg, ch, index)[DeletePlace(ch, p)] == Block(k, DeleteCalls(RefsAt(index, k), k))
  {
    OneOf(CreateBlocks(cfg, ch.create), UpdateBlocks(cfg, ch.update, index), DeleteBlocks(ch.delete, index),
          DeletePlace(ch, p));
  }

  /** The place of a delete among the blocks. */
  function DeletePlace(ch: Changes, p: nat): nat {
    |ch.create| + |ch.update| + p
  }

  lemma AtDeletePlace(c: Cloud, cfg: Account, ch: Changes, index: RecordIndex, j: nat, p: nat)
    returns (c1: Cloud, t: nat)
    requires c.Valid() && Indexes(c, index) && KeyDisjoint(ch) && j <= |Calls(cfg, ch, index)| && p < |ch.delete|
    ensures DeletePlace(ch, p) < |Blocks(cfg, ch, index)|
      && t == Progress(Blocks(cfg, ch, index), DeletePlace(ch, p), j)
    ensures var k := ZoneKey(ch.delete[p].Key());
      && Sub(c1, k) == Sub(c, k) && t <= |DeleteCalls(RefsAt(index, k), k)|
      && |Blocks(cfg, ch, index)[DeletePlace(ch, p)].calls| == |DeleteCalls(RefsAt(index, k), k)|
      && Sub(After(c, cfg, ch, index, j), k) == Sub(Exec(c1, DeleteCalls(RefsAt(index, k), k)[..t]), k)
  {
    var k := ZoneKey(ch.delete[p].Key());
    DeleteBlockIs(cfg, ch, index, p);
    c1, t := AtBlock(c, cfg, ch, index, j, DeletePlace(ch, p), Block(k, DeleteCalls(RefsAt(index, k), k)));
  }

  lemma DeleteBegun(c: Cloud, cfg: Account, ch: Changes, index: RecordIndex, j: nat, q: nat)
    requires c.Valid() && Indexes(c, index) && KeyDisjoint(ch) && j <= |Calls(cfg, ch, index)| && q < |ch.delete|
    requires Sub(After(c, cfg, ch, index, j), ZoneKey(ch.delete[q].Key())) != Sub(c, ZoneKey(ch.delete[q].Key()))
    ensures DeletePlace(ch, q) < |Blocks(cfg, ch, index)| && Progress(Blocks(cfg, ch, index), DeletePlace(ch, q), j) > 0
  {
    var l := ZoneKey(ch.delete[q].Key());
    var c1, t := AtDeletePlace(c, cfg, ch, index, j, q);
    if t == 0 { ExecNone(c1, DeleteCalls(RefsAt(index, l), l)); }
  }

  lemma DeleteDone(c: Cloud, cfg: Account, ch: Changes, index: RecordIndex, j: nat, p: nat)
    requires c.Valid() && Indexes(c, index) && KeyDisjoint(ch) && j <= |Calls(cfg, ch, index)| && p < |ch.delete|
    requires DeletePlace(ch, p) < |Blocks(cfg, ch, index)|
    requires Progress(Blocks(cfg, ch, index), DeletePlace(ch, p), j) ==
      |Blocks(cfg, ch, index)[DeletePlace(ch, p)].calls|
    ensures Sub(After(c, cfg, ch, index, j), ZoneKey(ch.delete[p].Key())) == map[]
  {
    var k := ZoneKey(ch.delete[p].Key());
    var c1, t := AtDeletePlace(c, cfg, ch, index, j, p);
    assert Enumerates(RefsAt(index, k), Sub(c1, k));
    DeleteBlockAt(c1, RefsAt(index, k), k, t);
  }

  /** A later delete has begun only when an earlier one is complete. */
  lemma DeletesInOrder(c: Cloud, cfg: Account, ch: Changes, index: RecordIndex, j: nat, p: nat, q: nat)
    requires c.Valid() && Indexes(c, index) && KeyDisjoint(ch) && j <= |Calls(cfg, ch, index)| && p < q < |ch.delete|
    requires Sub(After(c, cfg, ch, index, j), ZoneKey(ch.delete[q].Key())) != Sub(c, ZoneKey(ch.delete[q].Key()))
    ensures Sub(After(c, cfg, ch, index, j), ZoneKey(ch.delete[p].Key())) == map[]
  {
    DeleteBegun(c, cfg, ch, index, j, q);
    ProgressMonotone(Blocks(cfg, ch, index), DeletePlace(ch, p), DeletePlace(ch, q), j);
    DeleteDone(c, cfg, ch, index, j, p);
  }

  /** No data record loses its claim before it is gone: at worst a marker is left over. */
  lemma NoOrphanedData(g: Job, j: nat, k: Key)
    requires g.Planned() && j <= g.Length() && k.rtype != TXT && g.Claims(g.c, k)
    ensures g.Claims(g.After(j), k) || Sub(g.After(j), ZoneKey(k)) == map[]
  {
    if !Has(g.ch.delete, k) {
      ClaimKept(g, j, k);
    } else {
      var r := g.w.s.owner;
      var name :| ClaimsTxt(r, g.c, name, KeyText(k));
      if TxtAt(g.After(j), name) == TxtAt(g.c, name) {
        assert ClaimsTxt(r, g.After(j), name, KeyText(k));
      } else {
        DataGoneFirst(g, j, k, name);
      }
    }
  }

  /** The delete of a record comes before the delete of its marker. */
  lemma MarkerAfterData(r: Owner, ch: Changes, existing: set<string>, f: Endpoint) returns (p: nat, q: nat)
    requires f in ch.delete && TxtName(r, f.Key()) in existing
    ensures var del := Decorated(r, ch, existing).delete; p < q < |del| && del[p] == f && del[q] == Marker(r, f)
  {
    p :| 0 <= p < |ch.delete| && ch.delete[p] == f;
    var i := MarkerPlace(r, ch.delete, existing, true, f);
    q := |ch.delete| + i;
  }

  lemma DataGoneFirst(g: Job, j: nat, k: Key, name: string)
    requires g.Planned() && j <= g.Length() && k.rtype != TXT && ClaimsTxt(g.w.s.owner, g.c, name, KeyText(k))
    requires TxtAt(g.After(j), name) != TxtAt(g.c, name)
    ensures Sub(g.After(j), ZoneKey(k)) == map[]
  {
    var r := g.w.s.owner;
    TxtLeft(g, j, name);
    var f :| f in g.ch.delete && name == TxtName(r, f.Key());
    RealKeyOfTxtName(r, f.Key());
    KeyTextInjective(k, f.Key());
    var p, q := MarkerAfterData(r, g.ch, g.existing, f);
    OutApplies(g);
    DeletesInOrder(g.c, g.w.cfg, g.Out(), g.index, j, p, q);
  }
}
