/** Cloudflare refuses to create a record it already holds. What that leaves of the runs: which calls are
    refused, exactly when a run gets through, and which store no run ever gets out of. */
module CloudRefusal {
  import opened GoText
  import opened Endpoints
  import opened Planning
  import opened Registry
  import opened DnsZone
  import opened ZoneChoice
  import opened CloudStore
  import opened Cloudflare
  import opened CloudRuns
  import opened CloudRepair
  import opened Convergence

  /** The store holds a record with the zone and content of `rec` at its name and type. */
  ghost predicate Twin(sub: map<nat, CfRecord>, rec: CfRecord) {
    exists id :: id in sub && sub[id].zone == rec.zone && sub[id].content == rec.content
  }

  /** "An identical record already exists". */
  ghost predicate Refused(c: Cloud, call: Call) {
    call.Create? && Twin(Sub(c, call.rec.key), call.rec)
  }

  /** None of the first `j` calls of a run is refused. */
  ghost predicate Unrefused(w: Goal, c: Cloud, run: CloudRun, j: nat)
    requires j <= CallCount(w, run)
  {
    forall i: nat :: i < j ==>
      !Refused(After(c, w.cfg, Out(w, run), run.index, i), Calls(w.cfg, Out(w, run), run.index)[i])
  }

  /** A desired key is not claimed, and one of the records a run would create for it is there already. */
  ghost predicate Blocked(w: Goal, c: Cloud, k: Key) {
    && k in w.desired && !ClaimedKey(w, c, k)
    && exists t :: t in w.desired[k].targets && Twin(Sub(c, ZoneKey(k)), RecordFor(w.cfg, w.desired[k], t))
  }

  /** No desired record names a target twice. */
  ghost predicate NoRepeats(w: Goal) {
    forall k :: k in w.desired ==> Distinct(w.desired[k].targets)
  }

  // ---- what the store holds when a create is made ------------------------------------------------

  lemma DeleteHasNoCreate(refs: seq<nat>, k: RRKey, t: nat)
    requires t < |refs|
    ensures !DeleteCalls(refs, k)[t].Create?
  {
  }

  /** Inside an update, records are created once the old ones are gone. */
  lemma CreateInUpdate(c: Cloud, cfg: Account, e: Endpoint, refs: seq<nat>, t: nat) returns (n: nat, q: nat)
    requires c.Valid() && Longest(cfg.zones, e.name) != "" && Enumerates(refs, Sub(c, ZoneKey(e.Key())))
    requires t < |UpdateCalls(cfg, e, refs)| && UpdateCalls(cfg, e, refs)[t].Create?
    ensures q < |e.targets| && UpdateCalls(cfg, e, refs)[t] == Create(RecordsFor(cfg, e)[q])
    ensures Sub(Exec(c, UpdateCalls(cfg, e, refs)[..t]), ZoneKey(e.Key())) == FreshRecords(n, RecordsFor(cfg, e)[..q])
  {
    ReplaceEffect(c, cfg, e, refs, t);
    if t < |refs| { DeleteHasNoCreate(refs, ZoneKey(e.Key()), t); }
    n, q := c.next, t - |refs|;
    if q == 0 {
      ReplaceCalls(cfg, e, refs, t);
      AllDeleted(c, refs, ZoneKey(e.Key()));
      assert FreshRecords(n, RecordsFor(cfg, e)[..0]) == map[];
    }
  }

  /** A create of `e` finds what was there before, or nothing, and what this run has already created for `e`. */
  ghost predicate Finds(cfg: Account, e: Endpoint, before: map<nat, CfRecord>, n: nat, q: nat, sub: map<nat, CfRecord>)
  {
    q < |e.targets| && sub == before + FreshRecords(n, RecordsFor(cfg, e)[..q])
  }

  lemma CreateCallAt(g: Job, j: nat) returns (e: Endpoint, before: map<nat, CfRecord>, n: nat, q: nat)
    requires g.Planned() && j < g.Length() && Calls(g.w.cfg, g.Out(), g.index)[j].Create?
    ensures Finds(g.w.cfg, e, before, n, q, Sub(g.After(j), ZoneKey(e.Key())))
    ensures Calls(g.w.cfg, g.Out(), g.index)[j] == Create(RecordsFor(g.w.cfg, e)[q])
    ensures if e in g.Out().create then before == Sub(g.c, ZoneKey(e.Key())) else e in g.Out().update && before == map[]
  {
    var cfg, out, bs := g.w.cfg, g.Out(), Blocks(g.w.cfg, g.Out(), g.index);
    OutApplies(g);
    var i, t := FlattenAt(bs, j);
    BlockKeys(cfg, out, g.index);
    BlockAt(cfg, out, g.index, i);
    e := InOrderOf(out)[i];
    var k := ZoneKey(e.Key());
    var c1, t' := AtBlock(g.c, cfg, out, g.index, j, i, bs[i]);
    if i < |out.create| {
      assert e == out.create[i] && Longest(cfg.zones, e.name) != "";
      CreateBlockEffect(c1, cfg, e, t);
      before, n, q := Sub(g.c, k), c1.next, t;
    } else if i < |out.create| + |out.update| {
      assert e == out.update[i - |out.create|] && Longest(cfg.zones, e.name) != "";
      n, q := CreateInUpdate(c1, cfg, e, RefsAt(g.index, k), t);
      before := map[];
      EmptyPlus(FreshRecords(n, RecordsFor(cfg, e)[..q]));
    } else {
      DeleteHasNoCreate(RefsAt(g.index, k), k, t);
    }
  }

  // ---- which calls are refused ---------------------------------------------------------------------

  lemma ContentsDiffer(cfg: Account, e: Endpoint, p: nat, q: nat)
    requires p < q < |e.targets| && Distinct(e.targets) && (e.rtype == TXT ==> |e.targets| == 1)
    ensures RecordsFor(cfg, e)[p].content != RecordsFor(cfg, e)[q].content
  {
    RecordsAtKey(cfg, e, p);
    RecordsAtKey(cfg, e, q);
  }

  /** What a run creates for `e` is never its own twin: a twin was there before. */
  lemma TwinWasBefore(cfg: Account, e: Endpoint, before: map<nat, CfRecord>, n: nat, q: nat)
    requires q < |e.targets| && Distinct(e.targets) && (e.rtype == TXT ==> |e.targets| == 1)
    requires Twin(before + FreshRecords(n, RecordsFor(cfg, e)[..q]), RecordsFor(cfg, e)[q])
    ensures Twin(before, RecordsFor(cfg, e)[q])
  {
    var rs := RecordsFor(cfg, e);
    var added := FreshRecords(n, rs[..q]);
    var id :| id in before + added && (before + added)[id].zone == rs[q].zone
      && (before + added)[id].content == rs[q].content;
    forall id' | id' in added ensures added[id'].content != rs[q].content {
      ContentsDiffer(cfg, e, id' - n, q);
    }
    assert id in before && before[id] == (before + added)[id];
  }

  lemma CreatedShape(g: Job, e: Endpoint)
    requires g.Planned() && NoRepeats(g.w) && (e in g.Out().create || e in g.Out().update)
    ensures Distinct(e.targets) && (e.rtype == TXT ==> |e.targets| == 1)
    ensures e in g.ch.create || e in g.ch.update || MarkerOf(g.w.s.owner, g.ch.create, g.existing, false, e)
    ensures e in g.Out().update ==> e in g.ch.update
  {
    DecoratedShape(g.w.s.owner, g.ch, g.existing);
  }

  /** Only creates of blocked keys are refused: no update, and no marker, surviving or missing, ever is. */
  lemma RefusedOnlyWhenBlocked(g: Job, j: nat) returns (k: Key)
    requires g.Planned() && NoRepeats(g.w) && j < g.Length()
    requires Refused(g.After(j), Calls(g.w.cfg, g.Out(), g.index)[j])
    ensures Blocked(g.w, g.c, k) && g.w.desired[k] in g.ch.create
  {
    var e, before, n, q := CreateCallAt(g, j);
    CreatedShape(g, e);
    RecordsAtKey(g.w.cfg, e, q);
    TwinWasBefore(g.w.cfg, e, before, n, q);
    k := e.Key();
    RefusedKey(g, e, q);
  }

  lemma RefusedKey(g: Job, e: Endpoint, q: nat)
    requires g.Planned() && e in g.Out().create && q < |e.targets|
    requires Twin(Sub(g.c, ZoneKey(e.Key())), RecordsFor(g.w.cfg, e)[q])
    ensures Blocked(g.w, g.c, e.Key()) && g.w.desired[e.Key()] in g.ch.create
  {
    DecoratedShape(g.w.s.owner, g.ch, g.existing);
    if e in g.ch.create {
      assert g.PlannedAt(e.Key());
      RecordsAtKey(g.w.cfg, e, q);
      assert e.targets[q] in e.targets;
    } else {
      var r := g.w.s.owner;
      var f :| f in g.ch.create && e == Marker(r, f) && (TxtName(r, f.Key()) in g.existing) == false;
      MarkerPlaceFree(g, f);
      assert false;
    }
  }

  // ---- a blocked key stays blocked -----------------------------------------------------------------

  /** The place among the calls of the create of target `q` of the `p`-th created endpoint. */
  function Place(bs: seq<Block>, p: nat, q: nat): nat
    requires p < |bs|
  {
    |Flatten(bs[..p])| + q
  }

  lemma PlaceOf(bs: seq<Block>, p: nat, q: nat)
    requires p < |bs| && q < |bs[p].calls|
    ensures Place(bs, p, q) < |Flatten(bs)| && Flatten(bs)[Place(bs, p, q)] == bs[p].calls[q]
    ensures Progress(bs, p, Place(bs, p, q)) == q
  {
    FlattenSplit(bs, p);
  }

  lemma CreatePlace(g: Job, e: Endpoint, p: nat, q: nat)
    requires g.Planned() && p < |g.Out().create| && g.Out().create[p] == e && q < |e.targets|
    ensures var bs := Blocks(g.w.cfg, g.Out(), g.index);
      && p < |bs| && bs[p] == Block(ZoneKey(e.Key()), CreateCalls(g.w.cfg, e)) && q < |bs[p].calls|
      && Place(bs, p, q) < g.Length()
      && Calls(g.w.cfg, g.Out(), g.index)[Place(bs, p, q)] == Create(RecordsFor(g.w.cfg, e)[q])
  {
    OutApplies(g);
    BlockKeys(g.w.cfg, g.Out(), g.index);
    BlockAt(g.w.cfg, g.Out(), g.index, p);
    assert g.Out().create[p] in g.Out().create;
    PlaceOf(Blocks(g.w.cfg, g.Out(), g.index), p, q);
  }

  lemma TwinStays(before: map<nat, CfRecord>, added: map<nat, CfRecord>, rec: CfRecord)
    requires Twin(before, rec) && forall id :: id in before ==> id !in added
    ensures Twin(before + added, rec)
  {
    var id :| id in before && before[id].zone == rec.zone && before[id].content == rec.content;
    assert id in before + added && (before + added)[id] == before[id];
  }

  /** The records of a created key stay, wherever the run stops. */
  lemma CreatedTwinStays(g: Job, j: nat, e: Endpoint, rec: CfRecord)
    requires g.Planned() && j <= g.Length() && e in g.Out().create && Twin(Sub(g.c, ZoneKey(e.Key())), rec)
    ensures Twin(Sub(g.After(j), ZoneKey(e.Key())), rec)
  {
    var n, t := CreatedLeft(g, j, e);
    TwinStays(Sub(g.c, ZoneKey(e.Key())), FreshRecords(n, RecordsFor(g.w.cfg, e)[..t]), rec);
  }

  lemma BlockedIsCreated(g: Job, k: Key) returns (p: nat, q: nat)
    requires g.Planned() && Blocked(g.w, g.c, k)
    ensures p < |g.ch.create| && g.Out().create[p] == g.ch.create[p] == g.w.desired[k] && q < |g.w.desired[k].targets|
    ensures g.w.desired[k].Key() == k && Twin(Sub(g.c, ZoneKey(k)), RecordsFor(g.w.cfg, g.w.desired[k])[q])
  {
    var e := g.w.desired[k];
    assert g.PlannedAt(k) && e in g.ch.create;
    p :| 0 <= p < |g.ch.create| && g.ch.create[p] == e;
    var t :| t in e.targets && Twin(Sub(g.c, ZoneKey(k)), RecordFor(g.w.cfg, e, t));
    q :| 0 <= q < |e.targets| && e.targets[q] == t;
    RecordsAtKey(g.w.cfg, e, q);
  }

  /** A run that gets to a blocked key is refused there. */
  lemma BlockedIsRefused(g: Job, k: Key) returns (p: nat, q: nat)
    requires g.Planned() && Blocked(g.w, g.c, k)
    ensures p < |g.ch.create| && p < |Blocks(g.w.cfg, g.Out(), g.index)|
    ensures g.Out().create[p] == g.w.desired[k] && q < |Blocks(g.w.cfg, g.Out(), g.index)[p].calls|
    ensures var i := Place(Blocks(g.w.cfg, g.Out(), g.index), p, q);
      i < g.Length() && Refused(g.After(i), Calls(g.w.cfg, g.Out(), g.index)[i])
  {
    p, q := BlockedIsCreated(g, k);
    var e := g.w.desired[k];
    CreatePlace(g, e, p, q);
    RecordsAtKey(g.w.cfg, e, q);
    CreatedTwinStays(g, Place(Blocks(g.w.cfg, g.Out(), g.index), p, q), e, RecordsFor(g.w.cfg, e)[q]);
  }

  /** A marker is only created once the creates of all data records are through. */
  lemma MarkersComeLater(g: Job, f: Endpoint, p: nat, q: nat, j: nat)
    requires g.Planned() && f in g.ch.create && TxtName(g.w.s.owner, f.Key()) !in g.existing
    requires p < |g.ch.create| && p < |Blocks(g.w.cfg, g.Out(), g.index)|
    requires q < |Blocks(g.w.cfg, g.Out(), g.index)[p].calls|
    requires j <= Place(Blocks(g.w.cfg, g.Out(), g.index), p, q) && j <= g.Length()
    ensures TxtAt(g.After(j), TxtName(g.w.s.owner, f.Key())) == TxtAt(g.c, TxtName(g.w.s.owner, f.Key()))
  {
    var i, b := MarkerBlock(g, f);
    LaterNotBegun(Blocks(g.w.cfg, g.Out(), g.index), p, q, i, j);
    NotBegunYet(g, j, i, b);
  }

  lemma MarkerBlock(g: Job, f: Endpoint) returns (i: nat, b: Block)
    requires g.Planned() && f in g.ch.create && TxtName(g.w.s.owner, f.Key()) !in g.existing
    ensures |g.ch.create| <= i < |Blocks(g.w.cfg, g.Out(), g.index)| && Blocks(g.w.cfg, g.Out(), g.index)[i] == b
    ensures b.key == ZoneKey(RecordKey(TXT, TxtName(g.w.s.owner, f.Key())))
  {
    var m := Marker(g.w.s.owner, f);
    var at := MarkerPlace(g.w.s.owner, g.ch.create, g.existing, false, f);
    i := |g.ch.create| + at;
    assert g.Out().create[i] == m;
    CreatePlace(g, m, i, 0);
    b := Block(ZoneKey(m.Key()), CreateCalls(g.w.cfg, m));
  }

  lemma LaterNotBegun(bs: seq<Block>, p: nat, q: nat, i: nat, j: nat)
    requires p < i < |bs| && q < |bs[p].calls| && j <= Place(bs, p, q)
    ensures Progress(bs, i, j) == 0
  {
    if Progress(bs, i, j) > 0 { ProgressMonotone(bs, p, i, j); }
  }

  lemma NotBegunYet(g: Job, j: nat, i: nat, b: Block)
    requires g.Planned() && j <= g.Length() && i < |Blocks(g.w.cfg, g.Out(), g.index)|
    requires Blocks(g.w.cfg, g.Out(), g.index)[i] == b && Progress(Blocks(g.w.cfg, g.Out(), g.index), i, j) == 0
    ensures Sub(g.After(j), b.key) == Sub(g.c, b.key)
  {
    OutApplies(g);
    var c1, t := AtBlock(g.c, g.w.cfg, g.Out(), g.index, j, i, b);
    ExecNone(c1, b.calls);
  }

  /** Up to the place where it is refused, a run adds nothing that claims the key. */
  lemma StaysUnclaimed(g: Job, k: Key, p: nat, q: nat, j: nat)
    requires g.Planned() && k in g.w.desired && !g.Claims(g.c, k)
    requires p < |g.ch.create| && p < |Blocks(g.w.cfg, g.Out(), g.index)|
    requires q < |Blocks(g.w.cfg, g.Out(), g.index)[p].calls|
    requires j <= Place(Blocks(g.w.cfg, g.Out(), g.index), p, q) && j <= g.Length()
    ensures !g.Claims(g.After(j), k)
  {
    var r := g.w.s.owner;
    forall name ensures !ClaimsTxt(r, g.After(j), name, KeyText(k)) {
      if Marks(g, name) {
        var f :| f in g.ch.create && name == TxtName(r, f.Key());
        MarkersComeLater(g, f, p, q, j);
      } else {
        TxtLeft(g, j, name);
      }
      assert !ClaimsTxt(r, g.c, name, KeyText(k));
    }
  }

  ghost predicate JobUnrefused(g: Job, j: nat)
    requires j <= g.Length()
  {
    forall i: nat :: i < j ==> !Refused(g.After(i), Calls(g.w.cfg, g.Out(), g.index)[i])
  }

  lemma JobStaysBlocked(g: Job, k: Key, j: nat)
    requires g.Planned() && Blocked(g.w, g.c, k) && j <= g.Length() && JobUnrefused(g, j)
    ensures Blocked(g.w, g.After(j), k) && j < g.Length()
  {
    var p, q := BlockedIsRefused(g, k);
    var e := g.w.desired[k];
    StaysUnclaimed(g, k, p, q, j);
    var t :| t in e.targets && Twin(Sub(g.c, ZoneKey(k)), RecordFor(g.w.cfg, e, t));
    DesiredHas(g, k);
    assert e in g.Out().create;
    CreatedTwinStays(g, j, e, RecordFor(g.w.cfg, e, t));
  }

  // ---- runs ----------------------------------------------------------------------------------------

  /** A run gets through without being refused exactly when no desired key is blocked. For any policy, any keys
      under grace and any tidy store. */
  lemma RunUnrefusedExact(w: Goal, policy: string, kept: set<Key>, c: Cloud, run: CloudRun, c': Cloud)
    requires Hostable(w) && NoRepeats(w) && Tidy(w, c) && RunsFully(w, policy, kept, c, run, c')
    ensures Unrefused(w, c, run, CallCount(w, run)) <==> forall k :: k in w.desired ==> !Blocked(w, c, k)
  {
    var n := CallCount(w, run);
    var g := RunIsJob(w, policy, kept, c, run, n, c');
    if k :| k in w.desired && Blocked(w, c, k) {
      var p, q := BlockedIsRefused(g, k);
    } else {
      JobUnblocked(g);
    }
  }

  lemma JobUnblocked(g: Job)
    requires g.Planned() && NoRepeats(g.w) && forall k :: k in g.w.desired ==> !Blocked(g.w, g.c, k)
    ensures JobUnrefused(g, g.Length())
  {
    forall i: nat | i < g.Length() ensures !Refused(g.After(i), Calls(g.w.cfg, g.Out(), g.index)[i]) {
      if Refused(g.After(i), Calls(g.w.cfg, g.Out(), g.index)[i]) {
        var k := RefusedOnlyWhenBlocked(g, i);
      }
    }
  }

  /** From a clean store nothing is refused, wherever markers have outlived their records. */
  lemma CleanRunUnrefused(w: Goal, policy: string, kept: set<Key>, c: Cloud, run: CloudRun, c': Cloud)
    requires Hostable(w) && NoRepeats(w) && Tidy(w, c) && PresentAreClaimed(w, c)
    requires RunsFully(w, policy, kept, c, run, c')
    ensures Unrefused(w, c, run, CallCount(w, run))
  {
    RunUnrefusedExact(w, policy, kept, c, run, c');
    assert forall k :: k in w.desired && Sub(c, ZoneKey(k)) == map[] ==> !Blocked(w, c, k);
  }

  /** A run that makes only accepted calls leaves a blocked key blocked, and cannot make all its calls. */
  lemma RunStaysBlocked(w: Goal, policy: string, kept: set<Key>, c: Cloud, run: CloudRun, j: nat, c': Cloud, k: Key)
    requires Hostable(w) && Tidy(w, c) && RunsUpTo(w, policy, kept, c, run, j, c')
    requires Blocked(w, c, k) && Unrefused(w, c, run, j)
    ensures Blocked(w, c', k) && j < CallCount(w, run)
  {
    var g := RunIsJob(w, policy, kept, c, run, j, c');
    JobStaysBlocked(g, k, j);
  }

  ghost predicate AllUnrefused(w: Goal, states: seq<Cloud>, attempts: seq<Attempt>)
    requires Attempts(w, states, attempts)
  {
    forall i :: 0 <= i < |attempts| ==>
      attempts[i].calls <= CallCount(w, attempts[i].run)
      && Unrefused(w, states[i], attempts[i].run, attempts[i].calls)
  }

  lemma AttemptAt(w: Goal, states: seq<Cloud>, attempts: seq<Attempt>, i: nat)
    requires Attempts(w, states, attempts) && i < |attempts|
    ensures var a := attempts[i]; RunsUpTo(w, a.policy, a.kept, states[i], a.run, a.calls, states[i + 1])
  {
  }

  /** When a key is blocked, no number of runs gets it claimed: none of them completes, and a plan made from any
      reading still wants to create the key. */
  lemma {:induction false} BlockedForever(w: Goal, states: seq<Cloud>, attempts: seq<Attempt>, k: Key,
                                          m: map<Key, Endpoint>, next: Changes)
    requires Hostable(w) && Attempts(w, states, attempts) && Recoverable(w, states[0])
    requires AllUnrefused(w, states, attempts) && Blocked(w, states[0], k)
    requires ReadsCloud(states[|attempts|], m) && IsPlan(w.desired, Current(w.s, m), "sync", next)
    ensures Blocked(w, states[|attempts|], k) && Has(next.create, k)
    ensures forall i :: 0 <= i < |attempts| ==> attempts[i].calls < CallCount(w, attempts[i].run)
  {
    forall i | 0 <= i <= |attempts| ensures Blocked(w, states[i], k) {
      BlockedAfter(w, states, attempts, k, i);
    }
    forall i | 0 <= i < |attempts| ensures attempts[i].calls < CallCount(w, attempts[i].run) {
      BlockedAfter(w, states, attempts, k, i);
      var a := attempts[i];
      RunStaysBlocked(w, a.policy, a.kept, states[i], a.run, a.calls, states[i + 1], k);
    }
    BlockedAfter(w, states, attempts, k, |attempts|);
    ReadCurrent(w.s, states[|attempts|], m, k);
    assert k in Creates(w.desired, Current(w.s, m));
    assert w.desired[k] in next.create && w.desired[k].Key() == k;
  }

  lemma {:induction false} BlockedAfter(w: Goal, states: seq<Cloud>, attempts: seq<Attempt>, k: Key, i: nat)
    requires Hostable(w) && Attempts(w, states, attempts) && Recoverable(w, states[0]) && i <= |attempts|
    requires AllUnrefused(w, states, attempts) && Blocked(w, states[0], k)
    ensures Recoverable(w, states[i]) && Tidy(w, states[i]) && Blocked(w, states[i], k)
  {
    if i > 0 {
      BlockedAfter(w, states, attempts, k, i - 1);
      AttemptAt(w, states, attempts, i - 1);
      BlockedStep(w, states[i - 1], attempts[i - 1], states[i], k);
    } else {
      RecoverableIsTidy(w, states[0]);
    }
  }

  lemma BlockedStep(w: Goal, c: Cloud, a: Attempt, c': Cloud, k: Key)
    requires Hostable(w) && Recoverable(w, c) && Tidy(w, c) && Blocked(w, c, k)
    requires RunsUpTo(w, a.policy, a.kept, c, a.run, a.calls, c') && Unrefused(w, c, a.run, a.calls)
    ensures Recoverable(w, c') && Tidy(w, c') && Blocked(w, c', k)
  {
    RunStaysBlocked(w, a.policy, a.kept, c, a.run, a.calls, c', k);
    CutRunStaysRecoverable(w, a.policy, a.kept, c, a.run, a.calls, c');
    RecoverableIsTidy(w, c');
  }

  // ---- a run that gets through -----------------------------------------------------------------------

  ghost predicate InZoneOf(cfg: Account, e: Endpoint, sub: map<nat, CfRecord>) {
    forall id :: id in sub ==> sub[id].zone == Longest(cfg.zones, e.name)
  }

  /** The records of a desired key lie in the zone its name resolves to. */
  ghost predicate AtHome(w: Goal, c: Cloud) {
    forall k :: k in w.desired ==> InZoneOf(w.cfg, w.desired[k], Sub(c, ZoneKey(k)))
  }

  lemma FreshInZone(cfg: Account, e: Endpoint, n: nat, t: nat)
    requires t <= |e.targets|
    ensures InZoneOf(cfg, e, FreshRecords(n, RecordsFor(cfg, e)[..t]))
  {
    var added := FreshRecords(n, RecordsFor(cfg, e)[..t]);
    forall id | id in added ensures added[id].zone == Longest(cfg.zones, e.name) {
      RecordsAtKey(cfg, e, id - n);
    }
  }

  lemma UpdateInZone(c: Cloud, cfg: Account, e: Endpoint, refs: seq<nat>, t: nat)
    requires c.Valid() && Longest(cfg.zones, e.name) != "" && t <= |UpdateCalls(cfg, e, refs)|
    requires Enumerates(refs, Sub(c, ZoneKey(e.Key()))) && InZoneOf(cfg, e, Sub(c, ZoneKey(e.Key())))
    ensures InZoneOf(cfg, e, Sub(Exec(c, UpdateCalls(cfg, e, refs)[..t]), ZoneKey(e.Key())))
  {
    if InPlace(e, refs) {
      InPlaceEffect(c, cfg, e, refs);
      var calls := UpdateCalls(cfg, e, refs);
      assert calls[..0] == [] && calls[..1] == calls;
      assert refs[0] in refs && refs[0] in Sub(c, ZoneKey(e.Key()));
    } else {
      ReplaceEffect(c, cfg, e, refs, t);
      if t > |refs| { FreshInZone(cfg, e, c.next, t - |refs|); }
    }
  }

  lemma BothInZone(cfg: Account, e: Endpoint, a: map<nat, CfRecord>, b: map<nat, CfRecord>)
    requires InZoneOf(cfg, e, a) && InZoneOf(cfg, e, b)
    ensures InZoneOf(cfg, e, a + b)
  {
  }

  lemma StaysInZone(g: Job, j: nat, k: Key)
    requires g.Planned() && j <= g.Length() && k in g.w.desired
    requires InZoneOf(g.w.cfg, g.w.desired[k], Sub(g.c, ZoneKey(k)))
    ensures InZoneOf(g.w.cfg, g.w.desired[k], Sub(g.After(j), ZoneKey(k)))
  {
    var e := g.w.desired[k];
    DesiredHas(g, k);
    if e in g.ch.create {
      var n, t := CreatedLeft(g, j, e);
      FreshInZone(g.w.cfg, e, n, t);
      BothInZone(g.w.cfg, e, Sub(g.c, ZoneKey(k)), FreshRecords(n, RecordsFor(g.w.cfg, e)[..t]));
    } else if e in g.ch.update {
      UpdatedInZone(g, j, e);
    } else {
      UntouchedLeft(g, j, k);
    }
  }

  lemma UpdatedInZone(g: Job, j: nat, e: Endpoint)
    requires g.Planned() && j <= g.Length() && e in g.Out().update
    requires InZoneOf(g.w.cfg, e, Sub(g.c, ZoneKey(e.Key())))
    ensures InZoneOf(g.w.cfg, e, Sub(g.After(j), ZoneKey(e.Key())))
  {
    var refs := RefsAt(g.index, ZoneKey(e.Key()));
    OutApplies(g);
    var i := UpdateBlockOf(g.w.cfg, g.Out(), g.index, e);
    var c1, t := AtBlock(g.c, g.w.cfg, g.Out(), g.index, j, i,
                         Block(ZoneKey(e.Key()), UpdateCalls(g.w.cfg, e, refs)));
    UpdateInZone(c1, g.w.cfg, e, refs, t);
  }

  lemma CutRunStaysAtHome(w: Goal, policy: string, kept: set<Key>, c: Cloud, run: CloudRun, j: nat, c': Cloud)
    requires Hostable(w) && Tidy(w, c) && AtHome(w, c) && RunsUpTo(w, policy, kept, c, run, j, c')
    ensures AtHome(w, c')
  {
    var g := RunIsJob(w, policy, kept, c, run, j, c');
    forall k | k in w.desired ensures InZoneOf(w.cfg, w.desired[k], Sub(c', ZoneKey(k))) {
      StaysInZone(g, j, k);
    }
  }

  lemma UnclaimedIsBlocked(w: Goal, c: Cloud, k: Key)
    requires Hostable(w) && Recoverable(w, c) && AtHome(w, c)
    requires k in w.desired && Sub(c, ZoneKey(k)) != map[] && !ClaimedKey(w, c, k)
    ensures Blocked(w, c, k)
  {
    var e, sub := w.desired[k], Sub(c, ZoneKey(k));
    assert RecoverableAt(w, c, k) && InZoneOf(w.cfg, e, sub);
    var id :| id in sub;
    var t :| t in e.targets && Carries(w.cfg, e, t, sub[id]);
    assert Twin(sub, RecordFor(w.cfg, e, t));
  }

  ghost predicate AttemptsAccepted(w: Goal, states: seq<Cloud>, attempts: seq<Attempt>) {
    && Hostable(w) && Attempts(w, states, attempts) && AllUnrefused(w, states, attempts)
    && Recoverable(w, states[0]) && AtHome(w, states[0])
  }

  lemma {:induction false} AttemptsStayAtHome(w: Goal, states: seq<Cloud>, attempts: seq<Attempt>, i: nat)
    requires Hostable(w) && Attempts(w, states, attempts) && i <= |attempts|
    requires Recoverable(w, states[0]) && AtHome(w, states[0])
    ensures Recoverable(w, states[i]) && AtHome(w, states[i])
  {
    if i > 0 {
      AttemptsStayAtHome(w, states, attempts, i - 1);
      AttemptAt(w, states, attempts, i - 1);
      HomeStep(w, states[i - 1], attempts[i - 1], states[i]);
    }
  }

  lemma HomeStep(w: Goal, c: Cloud, a: Attempt, c': Cloud)
    requires Hostable(w) && Recoverable(w, c) && AtHome(w, c)
    requires RunsUpTo(w, a.policy, a.kept, c, a.run, a.calls, c')
    ensures Recoverable(w, c') && AtHome(w, c')
  {
    RecoverableIsTidy(w, c);
    CutRunStaysRecoverable(w, a.policy, a.kept, c, a.run, a.calls, c');
    CutRunStaysAtHome(w, a.policy, a.kept, c, a.run, a.calls, c');
  }

  lemma UnrefusedMeansClaimed(w: Goal, c: Cloud, run: CloudRun, c': Cloud)
    requires Hostable(w) && Recoverable(w, c) && AtHome(w, c) && RunsFully(w, "sync", {}, c, run, c')
    requires Unrefused(w, c, run, CallCount(w, run))
    ensures PresentAreClaimed(w, c)
  {
    RecoverableIsTidy(w, c);
    forall k | k in w.desired && Sub(c, ZoneKey(k)) != map[] ensures ClaimedKey(w, c, k) {
      if !ClaimedKey(w, c, k) {
        UnclaimedIsBlocked(w, c, k);
        RunStaysBlocked(w, "sync", {}, c, run, CallCount(w, run), c', k);
      }
    }
  }

  /** However many runs in a row were cut off, and wherever: a `sync` run gets through unrefused exactly when no
      desired key has unclaimed records, and then that one run makes the owned view match the desired records. */
  lemma RepairUnderRefusalExact(w: Goal, states: seq<Cloud>, attempts: seq<Attempt>, run: CloudRun, c': Cloud,
                                m': map<Key, Endpoint>, next: Changes)
    requires NoRepeats(w) && AttemptsAccepted(w, states, attempts)
    requires RunsFully(w, "sync", {}, states[|attempts|], run, c')
    requires ReadsCloud(c', m') && IsPlan(w.desired, Current(w.s, m'), "sync", next)
    ensures var c := states[|attempts|];
      && (Unrefused(w, c, run, CallCount(w, run)) <==> PresentAreClaimed(w, c))
      && (Unrefused(w, c, run, CallCount(w, run)) ==> Converged(w, m') && next.Empty())
  {
    var c := states[|attempts|];
    AttemptsStayAtHome(w, states, attempts, |attempts|);
    RecoverableIsTidy(w, c);
    if Unrefused(w, c, run, CallCount(w, run)) {
      UnrefusedMeansClaimed(w, c, run, c');
      AbortsRepairedByOneRunExact(w, states, attempts, run, c', m', next);
    } else if PresentAreClaimed(w, c) {
      CleanRunUnrefused(w, "sync", {}, c, run, c');
    }
  }

  /** On an empty store, a run that stops after the first record of its one desired endpoint leaves a blocked key. */
  lemma CutAfterFirstCreateBlocks(w: Goal, k: Key, e: Endpoint, c: Cloud, run: CloudRun, c1: Cloud)
    requires w.desired == map[k := e] && Hostable(w) && c.recs == map[] && RunsUpTo(w, "sync", {}, c, run, 1, c1)
    ensures Recoverable(w, c1) && Blocked(w, c1, k)
  {
    BareStoreIsRecoverable(w, c);
    CutRunStaysRecoverable(w, "sync", {}, c, run, 1, c1);
    OneRecordLeft(w, k, e, c, run, c1);
    assert k in w.desired && w.desired[k] == e;
    FirstIsMade(w, k, e, c, run, c1);
    assert e.targets[0] in e.targets;
  }

  lemma FirstIsMade(w: Goal, k: Key, e: Endpoint, c: Cloud, run: CloudRun, c1: Cloud)
    requires w.desired == map[k := e] && Hostable(w) && c.recs == map[] && RunsUpTo(w, "sync", {}, c, run, 1, c1)
    ensures e.targets != [] && Twin(Sub(c1, ZoneKey(k)), RecordFor(w.cfg, e, e.targets[0]))
  {
    assert k in w.desired && w.desired[k] == e && e.Key() == k;
    OnlyCreated(w, k, e, c, run);
    FirstCall(w.cfg, Out(w, run), run.index);
    OneCall(c, Calls(w.cfg, Out(w, run), run.index));
    TwinOfCreated(c, RecordFor(w.cfg, e, e.targets[0]));
  }

  lemma TwinOfCreated(c: Cloud, rec: CfRecord)
    ensures Twin(Sub(Do(c, Create(rec)), rec.key), rec)
  {
    assert Sub(Do(c, Create(rec)), rec.key)[c.next] == rec;
  }
}
