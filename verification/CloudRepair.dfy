/** What runs against Cloudflare achieve: convergence, exactly when one run suffices, repair
    after any number of aborted runs, and what the store holds in the end. */
module CloudRepair {
  import opened GoText
  import opened Endpoints
  import opened Planning
  import opened Registry
  import opened DnsZone
  import opened ZoneChoice
  import opened Convergence
  import opened CloudStore
  import opened Cloudflare
  import opened CloudRuns
  import Refinement
  import Rfc2136

  lemma NoCallsWhenEmpty(g: Job, j: nat)
    requires g.ch.Empty() && j <= g.Length()
    ensures g.After(j) == g.c
  {
    assert g.Out().create == [] && g.Out().update == [] && g.Out().delete == [];
    assert Calls(g.w.cfg, g.Out(), g.index) == [];
  }

  lemma RunIsJob(w: Goal, policy: string, kept: set<Key>, c: Cloud, run: CloudRun, j: nat, c': Cloud) returns (g: Job)
    requires Hostable(w) && Tidy(w, c) && RunsUpTo(w, policy, kept, c, run, j, c')
    ensures g == JobOf(w, c, run) && g.Planned() && j <= g.Length() == CallCount(w, run) && c' == g.After(j)
  {
    g := JobOf(w, c, run);
    RunIsPlanned(w, policy, kept, c, run, j, c');
    if run.changes.Empty() { NoCallsWhenEmpty(g, j); }
  }

  // ---- invariants ---------------------------------------------------------------------------------

  lemma RecoverableStays(g: Job, j: nat, k: Key)
    requires g.Planned() && j <= g.Length() && k in g.w.desired && RecoverableAt(g.w, g.c, k)
    ensures RecoverableAt(g.w, g.After(j), k)
  {
    var e := g.w.desired[k];
    DesiredHas(g, k);
    assert g.PlannedAt(k);
    if g.Claims(g.c, k) { ClaimKept(g, j, k); }
    if e in g.ch.create {
      EmptyIsPart(g.w.cfg, e);
      CreatedIsPart(g, j, k);
      PartIsUniform(g.w.cfg, e, Sub(g.After(j), ZoneKey(k)));
    } else if e in g.ch.update {
      UpdatedUniform(g, j, k);
    } else {
      UntouchedLeft(g, j, k);
    }
  }

  /** A run that stops after any API call leaves a recoverable store: for any policy and any keys under grace. */
  lemma CutRunStaysRecoverable(w: Goal, policy: string, kept: set<Key>, c: Cloud, run: CloudRun, j: nat, c': Cloud)
    requires Hostable(w) && Recoverable(w, c) && RunsUpTo(w, policy, kept, c, run, j, c')
    ensures Recoverable(w, c')
  {
    RecoverableIsTidy(w, c);
    var g := RunIsJob(w, policy, kept, c, run, j, c');
    MarkersStayOwn(g, j);
    OutApplies(g);
    AfterValid(c, w.cfg, g.Out(), g.index, j);
    forall k | k in w.desired ensures RecoverableAt(w, c', k) {
      RecoverableStays(g, j, k);
    }
  }

  /** Once the create phase is over every desired key is claimed, whatever the store held before. */
  lemma CreatesClaim(w: Goal, policy: string, kept: set<Key>, c: Cloud, run: CloudRun, j: nat, c': Cloud)
    requires Hostable(w) && Tidy(w, c) && RunsUpTo(w, policy, kept, c, run, j, c')
    requires CreatePhase(w.cfg, Out(w, run)) <= j
    ensures forall k :: k in w.desired ==> ClaimedKey(w, c', k)
  {
    var g := RunIsJob(w, policy, kept, c, run, j, c');
    forall k | k in w.desired ensures ClaimedKey(w, c', k) {
      DesiredClaimed(g, j, k);
    }
  }

  /** A run that stops anywhere past its create phase leaves a clean store behind a clean one. */
  lemma CutRunStaysClean(w: Goal, policy: string, kept: set<Key>, c: Cloud, run: CloudRun, j: nat, c': Cloud)
    requires Hostable(w) && CleanCloud(w, c) && RunsUpTo(w, policy, kept, c, run, j, c')
    requires CreatePhase(w.cfg, Out(w, run)) <= j
    ensures CleanCloud(w, c')
  {
    CleanIsRecoverable(w, c);
    RecoverableIsTidy(w, c);
    CutRunStaysRecoverable(w, policy, kept, c, run, j, c');
    CreatesClaim(w, policy, kept, c, run, j, c');
    assert forall k :: k in w.desired ==> RecoverableAt(w, c', k);
  }

  /** A complete run makes any tidy store tidy again, with every desired key claimed. */
  lemma FullRunClaims(w: Goal, policy: string, kept: set<Key>, c: Cloud, run: CloudRun, c': Cloud)
    requires Hostable(w) && Tidy(w, c) && RunsFully(w, policy, kept, c, run, c')
    ensures Tidy(w, c') && forall k :: k in w.desired ==> ClaimedKey(w, c', k)
  {
    var j := CallCount(w, run);
    var g := RunIsJob(w, policy, kept, c, run, j, c');
    CompletePhases(w.cfg, g.Out(), g.index);
    CreatesClaim(w, policy, kept, c, run, j, c');
    MarkersStayOwn(g, j);
    OutApplies(g);
    AfterValid(c, w.cfg, g.Out(), g.index, j);
    forall k | k in w.desired ensures Decided(w.desired[k], Sub(c', ZoneKey(k))) {
      DesiredDecided(g, k);
    }
  }

  // ---- one run, two runs --------------------------------------------------------------------------

  lemma StaleIsDeleted(desired: map<Key, Endpoint>, current: map<Key, Endpoint>, ch: Changes, k: Key)
    requires Keyed(current) && IsPlanKeeping(desired, current, "sync", {}, ch) && k in current && k !in desired
    ensures Has(ch.delete, k)
  {
    KeepingNone(desired, current, "sync", ch);
    assert k in Deletes(desired, current, "sync");
    assert current[k] in ch.delete && current[k].Key() == k;
  }

  lemma StaleIsGone(g: Job, k: Key)
    requires g.Planned() && k !in g.w.desired && IsPlanKeeping(g.w.desired, Current(g.w.s, g.m), "sync", {}, g.ch)
    requires Present(g.w.s, g.c, k)
    ensures Sub(g.After(g.Length()), ZoneKey(k)) == map[]
  {
    ReadCurrent(g.w.s, g.c, g.m, k);
    CurrentShape(g.w.s, g.c, g.m);
    StaleIsDeleted(g.w.desired, Current(g.w.s, g.m), g.ch, k);
    OthersLeft(g, g.Length(), k);
  }

  lemma NothingStaleLeft(g: Job, k: Key)
    requires g.Planned() && k !in g.w.desired && IsPlanKeeping(g.w.desired, Current(g.w.s, g.m), "sync", {}, g.ch)
    ensures !Present(g.w.s, g.After(g.Length()), k)
  {
    if Present(g.w.s, g.After(g.Length()), k) {
      ClaimsNotNew(g, g.Length(), k);
      OthersLeft(g, g.Length(), k);
      if Present(g.w.s, g.c, k) { StaleIsGone(g, k); }
    }
  }

  /** What the next run reads at a key. */
  lemma NextCurrent(g: Job, m': map<Key, Endpoint>, k: Key)
    requires g.Planned() && IsPlanKeeping(g.w.desired, Current(g.w.s, g.m), "sync", {}, g.ch)
    requires ReadsCloud(g.After(g.Length()), m') && UnmixedTxt(g.w.s.owner, g.After(g.Length()))
    requires k in g.w.desired ==> g.Claims(g.After(g.Length()), k)
    ensures k in Current(g.w.s, m') <==> k in g.w.desired
    ensures k in g.w.desired ==>
      (Same(g.w.desired[k], Current(g.w.s, m')[k]) <==> Sub(g.c, ZoneKey(k)) == map[] || g.Claims(g.c, k))
  {
    ReadCurrent(g.w.s, g.After(g.Length()), m', k);
    if k in g.w.desired {
      DesiredReadsBack(g, k, m');
    } else {
      NothingStaleLeft(g, k);
    }
  }

  /** `cur` holds a desired key as asked for exactly when nothing unclaimed was in its place. */
  ghost predicate NextAt(w: Goal, c: Cloud, cur: map<Key, Endpoint>, k: Key) {
    && (k in cur <==> k in w.desired)
    && (k in w.desired ==> (Same(w.desired[k], cur[k]) <==> Sub(c, ZoneKey(k)) == map[] || ClaimedKey(w, c, k)))
  }

  lemma NextPlanExact(w: Goal, c: Cloud, cur: map<Key, Endpoint>, next: Changes)
    requires IsPlan(w.desired, cur, "sync", next) && forall k :: NextAt(w, c, cur, k)
    ensures next.Empty() <==> PresentAreClaimed(w, c)
    ensures cur.Keys == w.desired.Keys
  {
    assert forall k :: k in cur || k in w.desired ==> NextAt(w, c, cur, k);
    NothingToPlan(w.desired, cur, "sync", next);
  }

  lemma NextEverywhere(g: Job, m': map<Key, Endpoint>)
    requires g.Planned() && IsPlanKeeping(g.w.desired, Current(g.w.s, g.m), "sync", {}, g.ch)
    requires ReadsCloud(g.After(g.Length()), m') && UnmixedTxt(g.w.s.owner, g.After(g.Length()))
    requires forall k :: k in g.w.desired ==> g.Claims(g.After(g.Length()), k)
    ensures forall k :: NextAt(g.w, g.c, Current(g.w.s, m'), k)
  {
    forall k ensures NextAt(g.w, g.c, Current(g.w.s, m'), k) {
      NextCurrent(g, m', k);
    }
  }

  /** From any tidy store, after one complete `sync` run with no key under grace the next plan is empty
      exactly when every desired key that had records was claimed. The owned keys are the desired ones in any case. */
  lemma OneCloudRunExact(w: Goal, c: Cloud, run: CloudRun, c': Cloud, m': map<Key, Endpoint>, next: Changes)
    requires Hostable(w) && Tidy(w, c) && RunsFully(w, "sync", {}, c, run, c')
    requires ReadsCloud(c', m') && IsPlan(w.desired, Current(w.s, m'), "sync", next)
    ensures next.Empty() <==> PresentAreClaimed(w, c)
    ensures Current(w.s, m').Keys == w.desired.Keys
  {
    FullRunClaims(w, "sync", {}, c, run, c');
    var g := RunIsJob(w, "sync", {}, c, run, CallCount(w, run), c');
    NextEverywhere(g, m');
    NextPlanExact(w, c, Current(w.s, m'), next);
  }

  /** The owned view of a reading is the desired one. */
  ghost predicate Converged(w: Goal, m: map<Key, Endpoint>) {
    Current(w.s, m).Keys == w.desired.Keys && forall k :: k in w.desired ==> Same(w.desired[k], Current(w.s, m)[k])
  }

  /** From a store without foreign records at desired keys, one complete run makes the owned view match. */
  lemma OneCloudRunConverges(w: Goal, c: Cloud, run: CloudRun, c': Cloud, m': map<Key, Endpoint>, next: Changes)
    requires Hostable(w) && Tidy(w, c) && PresentAreClaimed(w, c) && RunsFully(w, "sync", {}, c, run, c')
    requires ReadsCloud(c', m') && IsPlan(w.desired, Current(w.s, m'), "sync", next)
    ensures Converged(w, m') && next.Empty()
  {
    OneCloudRunExact(w, c, run, c', m', next);
    EmptyPlanMeansEqual(w.desired, Current(w.s, m'), next);
  }

  /** From any tidy store, also one with unclaimed records at desired keys, two complete runs suffice:
      the first one claims what it finds, the second one replaces it. */
  lemma TwoCloudRunsConverge(w: Goal, c: Cloud, run1: CloudRun, c1: Cloud, run2: CloudRun, c2: Cloud,
                             m': map<Key, Endpoint>, next: Changes)
    requires Hostable(w) && Tidy(w, c)
    requires RunsFully(w, "sync", {}, c, run1, c1) && RunsFully(w, "sync", {}, c1, run2, c2)
    requires ReadsCloud(c2, m') && IsPlan(w.desired, Current(w.s, m'), "sync", next)
    ensures Converged(w, m') && next.Empty()
  {
    FullRunClaims(w, "sync", {}, c, run1, c1);
    OneCloudRunConverges(w, c1, run2, c2, m', next);
  }

  // ---- what runs do to everything else -----------------------------------------------------------------

  /** Data records of keys that are not desired only disappear, only if they were owned and in scope,
      and their marker never goes first: no data record is left behind without its claim. */
  ghost predicate DataContained(w: Goal, c: Cloud, c': Cloud, k: Key) {
    && Fewer(Sub(c', ZoneKey(k)), Sub(c, ZoneKey(k)))
    && (!Present(w.s, c, k) ==> Sub(c', ZoneKey(k)) == Sub(c, ZoneKey(k)))
    && (Present(w.s, c, k) ==> Sub(c', ZoneKey(k)) == map[] || ClaimedKey(w, c', k))
    && (ClaimedKey(w, c', k) ==> ClaimedKey(w, c, k))
  }

  ghost predicate OwnMarkerPlace(w: Goal, name: string) {
    exists k :: k in w.desired && name == TxtName(w.s.owner, k)
  }

  /** TXT records that appear are own markers of desired keys; those that disappear were own markers. */
  ghost predicate TxtContained(w: Goal, c: Cloud, c': Cloud, name: string) {
    && (forall id :: id in TxtAt(c', name) ==>
          || (id in TxtAt(c, name) && TxtAt(c, name)[id] == TxtAt(c', name)[id])
          || (OwnRecord(w.s.owner, TxtAt(c', name)[id]) && OwnMarkerPlace(w, name)))
    && (forall id :: id in TxtAt(c, name) && !OwnRecord(w.s.owner, TxtAt(c, name)[id]) ==>
          id in TxtAt(c', name) && TxtAt(c', name)[id] == TxtAt(c, name)[id])
  }

  ghost predicate Contained(w: Goal, c: Cloud, c': Cloud) {
    && (forall k: Key :: k !in w.desired && k.rtype != TXT ==> DataContained(w, c, c', k))
    && (forall name :: TxtContained(w, c, c', name))
    && (forall l: RRKey :: l.rtype.Other? ==> Sub(c', l) == Sub(c, l))
  }

  lemma DataStaysContained(g: Job, j: nat, k: Key)
    requires g.Planned() && j <= g.Length() && k !in g.w.desired && k.rtype != TXT
    requires Has(g.ch.delete, k) ==> Present(g.w.s, g.c, k)
    ensures DataContained(g.w, g.c, g.After(j), k)
  {
    OthersLeft(g, j, k);
    if Present(g.w.s, g.c, k) { NoOrphanedData(g, j, k); }
    if g.Claims(g.After(j), k) { ClaimsNotNew(g, j, k); }
  }

  lemma TxtStaysContained(g: Job, j: nat, name: string)
    requires g.Planned() && j <= g.Length()
    ensures TxtContained(g.w, g.c, g.After(j), name)
  {
    var c' := g.After(j);
    forall id | id in TxtAt(c', name) ensures
      || (id in TxtAt(g.c, name) && TxtAt(g.c, name)[id] == TxtAt(c', name)[id])
      || (OwnRecord(g.w.s.owner, TxtAt(c', name)[id]) && OwnMarkerPlace(g.w, name))
    {
      TxtOrigin(g, j, name, id);
    }
    TxtLeft(g, j, name);
  }

  lemma OthersStay(g: Job, j: nat, l: RRKey)
    requires g.Planned() && j <= g.Length() && l.rtype.Other?
    ensures Sub(g.After(j), l) == Sub(g.c, l)
  {
    OutApplies(g);
    assert forall e: Endpoint :: ZoneKey(e.Key()) != l;
    AtOthers(g.c, g.w.cfg, g.Out(), g.index, j, l);
  }

  lemma DeletedIsPresent(w: Goal, policy: string, kept: set<Key>, c: Cloud, run: CloudRun, k: Key)
    requires UnmixedTxt(w.s.owner, c) && ReadsCloud(c, run.first) && Has(run.changes.delete, k)
    requires IsPlanKeeping(w.desired, Current(w.s, run.first), policy, kept, run.changes)
    ensures Present(w.s, c, k)
  {
    var e :| e in run.changes.delete && e.Key() == k;
    assert k in Deletes(w.desired, Current(w.s, run.first), policy);
    ReadCurrent(w.s, c, run.first, k);
  }

  /** Wherever a run stops, it contains itself. */
  lemma CutRunContained(w: Goal, policy: string, kept: set<Key>, c: Cloud, run: CloudRun, j: nat, c': Cloud)
    requires Hostable(w) && Tidy(w, c) && RunsUpTo(w, policy, kept, c, run, j, c')
    ensures Contained(w, c, c')
  {
    var g := RunIsJob(w, policy, kept, c, run, j, c');
    forall k: Key | k !in w.desired && k.rtype != TXT ensures DataContained(w, c, c', k) {
      if Has(g.ch.delete, k) { DeletedIsPresent(w, policy, kept, c, run, k); }
      DataStaysContained(g, j, k);
    }
    forall name ensures TxtContained(w, c, c', name) {
      TxtStaysContained(g, j, name);
    }
    forall l: RRKey | l.rtype.Other? ensures Sub(c', l) == Sub(c, l) {
      OthersStay(g, j, l);
    }
  }

  lemma DataChain(w: Goal, a: Cloud, b: Cloud, c: Cloud, k: Key)
    requires DataContained(w, a, b, k) && DataContained(w, b, c, k)
    ensures DataContained(w, a, c, k)
  {
  }

  lemma TxtChain(w: Goal, a: Cloud, b: Cloud, c: Cloud, name: string)
    requires TxtContained(w, a, b, name) && TxtContained(w, b, c, name)
    ensures TxtContained(w, a, c, name)
  {
  }

  lemma ContainedChain(w: Goal, a: Cloud, b: Cloud, c: Cloud)
    requires Contained(w, a, b) && Contained(w, b, c)
    ensures Contained(w, a, c)
  {
    forall k: Key | k !in w.desired && k.rtype != TXT ensures DataContained(w, a, c, k) {
      DataChain(w, a, b, c, k);
    }
    forall name ensures TxtContained(w, a, c, name) {
      TxtChain(w, a, b, c, name);
    }
  }

  lemma ContainedSelf(w: Goal, c: Cloud)
    ensures Contained(w, c, c)
  {
    forall k: Key ensures DataContained(w, c, c, k) {}
    forall name ensures TxtContained(w, c, c, name) {}
  }

  /** Of the data records that are not desired, exactly those that were owned and in scope are gone. */
  ghost predicate Swept(w: Goal, c: Cloud, c': Cloud) {
    forall k: Key :: k !in w.desired && k.rtype != TXT ==>
      Sub(c', ZoneKey(k)) == if Present(w.s, c, k) then map[] else Sub(c, ZoneKey(k))
  }

  lemma FullRunSweeps(w: Goal, c: Cloud, run: CloudRun, c': Cloud)
    requires Hostable(w) && Tidy(w, c) && RunsFully(w, "sync", {}, c, run, c')
    ensures Swept(w, c, c')
  {
    var j := CallCount(w, run);
    var g := RunIsJob(w, "sync", {}, c, run, j, c');
    CutRunContained(w, "sync", {}, c, run, j, c');
    forall k: Key | k !in w.desired && k.rtype != TXT
      ensures Sub(c', ZoneKey(k)) == if Present(w.s, c, k) then map[] else Sub(c, ZoneKey(k))
    {
      assert DataContained(w, c, c', k);
      if Present(w.s, c, k) { StaleIsGone(g, k); }
    }
  }

  lemma SweptAfter(w: Goal, a: Cloud, b: Cloud, c: Cloud)
    requires Contained(w, a, b) && Swept(w, b, c)
    ensures Swept(w, a, c)
  {
    forall k: Key | k !in w.desired && k.rtype != TXT
      ensures Sub(c, ZoneKey(k)) == if Present(w.s, a, k) then map[] else Sub(a, ZoneKey(k))
    {
      assert DataContained(w, a, b, k);
    }
  }

  // ---- aborted runs ----------------------------------------------------------------------------------------

  /** One run that stopped after some number of calls, for whatever reason. */
  datatype Attempt = Attempt(policy: string, kept: set<Key>, run: CloudRun, calls: nat)

  ghost predicate PastCreates(w: Goal, a: Attempt) {
    CreatePhase(w.cfg, Out(w, a.run)) <= a.calls
  }

  ghost predicate Attempts(w: Goal, states: seq<Cloud>, attempts: seq<Attempt>) {
    && |states| == |attempts| + 1
    && forall i :: 0 <= i < |attempts| ==>
         RunsUpTo(w, attempts[i].policy, attempts[i].kept, states[i], attempts[i].run, attempts[i].calls, states[i + 1])
  }

  lemma {:induction false} AttemptsStayRecoverable(w: Goal, states: seq<Cloud>, attempts: seq<Attempt>)
    requires Hostable(w) && Attempts(w, states, attempts) && Recoverable(w, states[0])
    ensures Recoverable(w, states[|attempts|]) && Contained(w, states[0], states[|attempts|])
  {
    if attempts == [] {
      ContainedSelf(w, states[0]);
    } else {
      var n := |attempts| - 1;
      assert Attempts(w, states[..n + 1], attempts[..n]);
      AttemptsStayRecoverable(w, states[..n + 1], attempts[..n]);
      var a := attempts[n];
      RecoverableIsTidy(w, states[n]);
      CutRunStaysRecoverable(w, a.policy, a.kept, states[n], a.run, a.calls, states[n + 1]);
      CutRunContained(w, a.policy, a.kept, states[n], a.run, a.calls, states[n + 1]);
      ContainedChain(w, states[0], states[n], states[n + 1]);
    }
  }

  /** However many runs in a row stop after whatever API call, two complete `sync` runs make the owned view match
      the desired records. Of the records that are not desired, exactly the owned ones in scope are gone; every
      other record keeps its id and content, and at worst own marker TXTs are left over. */
  lemma AbortsAreRepaired(w: Goal, states: seq<Cloud>, attempts: seq<Attempt>, run1: CloudRun, c1: Cloud,
                          run2: CloudRun, c2: Cloud, m': map<Key, Endpoint>, next: Changes)
    requires Hostable(w) && Attempts(w, states, attempts) && Recoverable(w, states[0])
    requires RunsFully(w, "sync", {}, states[|attempts|], run1, c1) && RunsFully(w, "sync", {}, c1, run2, c2)
    requires ReadsCloud(c2, m') && IsPlan(w.desired, Current(w.s, m'), "sync", next)
    ensures Converged(w, m') && next.Empty()
    ensures Swept(w, states[0], c2) && Contained(w, states[0], c2)
  {
    var c := states[|attempts|];
    AttemptsStayRecoverable(w, states, attempts);
    RecoverableIsTidy(w, c);
    TwoCloudRunsConverge(w, c, run1, c1, run2, c2, m', next);
    FullRunClaims(w, "sync", {}, c, run1, c1);
    CutRunContained(w, "sync", {}, c, run1, CallCount(w, run1), c1);
    ContainedChain(w, states[0], c, c1);
    LastRunSweeps(w, states[0], c1, run2, c2);
  }

  lemma LastRunSweeps(w: Goal, first: Cloud, c: Cloud, run: CloudRun, c': Cloud)
    requires Hostable(w) && Tidy(w, c) && Contained(w, first, c) && RunsFully(w, "sync", {}, c, run, c')
    ensures Swept(w, first, c') && Contained(w, first, c')
  {
    CutRunContained(w, "sync", {}, c, run, CallCount(w, run), c');
    FullRunSweeps(w, c, run, c');
    SweptAfter(w, first, c, c');
    ContainedChain(w, first, c, c');
  }

  /** One complete run repairs them exactly when the last store has no unclaimed records at desired keys,
      and that is so whenever the last run got past its create phase. */
  lemma AbortsRepairedByOneRunExact(w: Goal, states: seq<Cloud>, attempts: seq<Attempt>, run: CloudRun, c': Cloud,
                                    m': map<Key, Endpoint>, next: Changes)
    requires Hostable(w) && Attempts(w, states, attempts) && Recoverable(w, states[0])
    requires RunsFully(w, "sync", {}, states[|attempts|], run, c')
    requires ReadsCloud(c', m') && IsPlan(w.desired, Current(w.s, m'), "sync", next)
    ensures next.Empty() <==> PresentAreClaimed(w, states[|attempts|])
    ensures next.Empty() ==> Converged(w, m')
    ensures Swept(w, states[0], c') && Contained(w, states[0], c')
    ensures attempts != [] && PastCreates(w, attempts[|attempts| - 1]) ==> next.Empty()
  {
    var n, c := |attempts|, states[|attempts|];
    AttemptsStayRecoverable(w, states, attempts);
    RecoverableIsTidy(w, c);
    OneCloudRunExact(w, c, run, c', m', next);
    if next.Empty() { EmptyPlanMeansEqual(w.desired, Current(w.s, m'), next); }
    LastRunSweeps(w, states[0], c, run, c');
    if n > 0 && PastCreates(w, attempts[n - 1]) {
      LastAttemptClaims(w, states, attempts);
    }
  }

  lemma LastAttemptClaims(w: Goal, states: seq<Cloud>, attempts: seq<Attempt>)
    requires Hostable(w) && Attempts(w, states, attempts) && Recoverable(w, states[0]) && attempts != []
    requires PastCreates(w, attempts[|attempts| - 1])
    ensures PresentAreClaimed(w, states[|attempts|])
  {
    var n := |attempts| - 1;
    var a := attempts[n];
    assert Attempts(w, states[..n + 1], attempts[..n]);
    AttemptsStayRecoverable(w, states[..n + 1], attempts[..n]);
    RecoverableIsTidy(w, states[n]);
    CreatesClaim(w, a.policy, a.kept, states[n], a.run, a.calls, states[n + 1]);
  }

  // ---- a run that one run does not repair ------------------------------------------------------------------------

  lemma FirstCall(cfg: Account, ch: Changes, index: RecordIndex)
    requires ch.create != [] && Longest(cfg.zones, ch.create[0].name) != "" && ch.create[0].targets != []
    ensures Calls(cfg, ch, index) != []
      && Calls(cfg, ch, index)[0] == Create(RecordFor(cfg, ch.create[0], ch.create[0].targets[0]))
  {
    FlattenSplit(Blocks(cfg, ch, index), 0);
    BlockAt(cfg, ch, index, 0);
    RecordsAtKey(cfg, ch.create[0], 0);
    assert Blocks(cfg, ch, index)[..0] == [];
  }

  lemma OnlyCreated(w: Goal, k: Key, e: Endpoint, c: Cloud, run: CloudRun)
    requires w.desired == map[k := e] && e.Key() == k && k.rtype != TXT && c.recs == map[] && ReadsCloud(c, run.first)
    requires IsPlanKeeping(w.desired, Current(w.s, run.first), "sync", {}, run.changes)
    ensures !run.changes.Empty() && Out(w, run).create != [] && Out(w, run).create[0] == e
  {
    assert Sub(c, ZoneKey(k)) == map[] && k !in Current(w.s, run.first);
    assert k in Creates(w.desired, Current(w.s, run.first)) && e in run.changes.create;
    assert forall f :: f in run.changes.create ==> f == e;
    assert run.changes.create[0] in run.changes.create;
  }

  lemma OneCall(c: Cloud, calls: seq<Call>)
    requires calls != []
    ensures Exec(c, calls[..1]) == Do(c, calls[0])
  {
    ExecOneMore(c, calls, 0);
    ExecNone(c, calls);
  }

  lemma OneRecord(c: Cloud, rec: CfRecord)
    requires c.recs == map[]
    ensures var c1 := Do(c, Create(rec)); Sub(c1, rec.key) != map[] && forall l :: l != rec.key ==> Sub(c1, l) == map[]
  {
    assert c.next in Sub(Do(c, Create(rec)), rec.key);
  }

  lemma OneRecordLeft(w: Goal, k: Key, e: Endpoint, c: Cloud, run: CloudRun, c1: Cloud)
    requires w.desired == map[k := e] && Hostable(w) && c.recs == map[] && RunsUpTo(w, "sync", {}, c, run, 1, c1)
    ensures Sub(c1, ZoneKey(k)) != map[] && !ClaimedKey(w, c1, k)
  {
    assert k in w.desired && w.desired[k] == e && e.Key() == k;
    OnlyCreated(w, k, e, c, run);
    FirstCall(w.cfg, Out(w, run), run.index);
    OneCall(c, Calls(w.cfg, Out(w, run), run.index));
    OneRecord(c, RecordFor(w.cfg, e, e.targets[0]));
    forall name ensures !ClaimsTxt(w.s.owner, c1, name, KeyText(k)) {
      assert TxtAt(c1, name) == map[];
    }
  }

  lemma BareStoreIsRecoverable(w: Goal, c: Cloud)
    requires c.recs == map[]
    ensures Recoverable(w, c)
  {
    assert forall k :: Sub(c, k) == map[];
    assert forall k :: k in w.desired ==> PartOf(w.cfg, w.desired[k], map[]);
  }

  /** On an empty store, a run that stops after the first record of its one desired endpoint leaves the record
      unclaimed: the next complete run creates it a second time and claims both, the one after that puts it right. */
  lemma CutAfterFirstCreate(w: Goal, k: Key, e: Endpoint, c: Cloud, run: CloudRun, c1: Cloud, run1: CloudRun, c2: Cloud,
                            run2: CloudRun, c3: Cloud, m2: map<Key, Endpoint>, next2: Changes, m3: map<Key, Endpoint>,
                            next3: Changes)
    requires w.desired == map[k := e] && Hostable(w) && c.recs == map[] && RunsUpTo(w, "sync", {}, c, run, 1, c1)
    requires RunsFully(w, "sync", {}, c1, run1, c2) && RunsFully(w, "sync", {}, c2, run2, c3)
    requires ReadsCloud(c2, m2) && IsPlan(w.desired, Current(w.s, m2), "sync", next2)
    requires ReadsCloud(c3, m3) && IsPlan(w.desired, Current(w.s, m3), "sync", next3)
    ensures !next2.Empty() && next3.Empty() && Converged(w, m3)
  {
    BareStoreIsRecoverable(w, c);
    CutRunStaysRecoverable(w, "sync", {}, c, run, 1, c1);
    RecoverableIsTidy(w, c1);
    OneRecordLeft(w, k, e, c, run, c1);
    assert k in w.desired;
    OneCloudRunExact(w, c1, run1, c2, m2, next2);
    TwoCloudRunsConverge(w, c1, run1, c2, run2, c3, m3, next3);
  }

  // ---- the owned records as a plain map ----------------------------------------------------------------------------

  ghost predicate OwnedKey(w: Goal, c: Cloud, k: Key) {
    Sub(c, ZoneKey(k)) != map[] && k.rtype != TXT && ClaimedKey(w, c, k)
  }

  /** New records for `e` have joined those that were there. */
  ghost predicate JoinedBy(cfg: Account, e: Endpoint, c: Cloud, c': Cloud) {
    exists n: nat :: (forall id :: id in c.recs ==> id < n) && JoinsAt(cfg, e, c, c', n)
  }

  ghost predicate JoinsAt(cfg: Account, e: Endpoint, c: Cloud, c': Cloud, n: nat) {
    Sub(c', ZoneKey(e.Key())) == Sub(c, ZoneKey(e.Key())) + FreshRecords(n, RecordsFor(cfg, e))
  }

  /** A complete run changes the map from owned keys to records as a plain map update would: creates added to
      what was there, updates replaced, deletes removed. For any policy, any keys under grace, any tidy store. */
  lemma CloudRefinesMapUpdate(w: Goal, policy: string, kept: set<Key>, c: Cloud, run: CloudRun, c': Cloud, k: Key)
    requires Hostable(w) && Tidy(w, c) && RunsFully(w, policy, kept, c, run, c') && k.rtype != TXT
    ensures OwnedKey(w, c', k) <==> Has(run.changes.create, k) || (OwnedKey(w, c, k) && !Has(run.changes.delete, k))
    ensures Has(run.changes.create, k) ==> k in w.desired && JoinedBy(w.cfg, w.desired[k], c, c')
    ensures Has(run.changes.update, k) ==> k in w.desired && Holds(w.cfg, w.desired[k], Sub(c', ZoneKey(k)))
    ensures Has(run.changes.delete, k) ==> Sub(c', ZoneKey(k)) == map[]
    ensures !Has(run.changes.create, k) && !Has(run.changes.update, k) && !Has(run.changes.delete, k) ==>
      Sub(c', ZoneKey(k)) == Sub(c, ZoneKey(k))
  {
    var j := CallCount(w, run);
    var g := RunIsJob(w, policy, kept, c, run, j, c');
    if k in w.desired {
      RefinesDesired(g, k);
    } else {
      RefinesOther(g, k);
    }
  }

  lemma RefinesOther(g: Job, k: Key)
    requires g.Planned() && k !in g.w.desired && k.rtype != TXT
    ensures !Has(g.ch.create, k) && !Has(g.ch.update, k)
    ensures var c' := g.After(g.Length());
      && (OwnedKey(g.w, c', k) <==> OwnedKey(g.w, g.c, k) && !Has(g.ch.delete, k))
      && Sub(c', ZoneKey(k)) == if Has(g.ch.delete, k) then map[] else Sub(g.c, ZoneKey(k))
  {
    var j := g.Length();
    OthersLeft(g, j, k);
    if g.Claims(g.After(j), k) { ClaimsNotNew(g, j, k); }
    if g.Claims(g.c, k) && !Has(g.ch.delete, k) { ClaimKept(g, j, k); }
  }

  lemma RefinesDesired(g: Job, k: Key)
    requires g.Planned() && k in g.w.desired
    ensures !Has(g.ch.delete, k)
    ensures var c', e := g.After(g.Length()), g.w.desired[k];
      && OwnedKey(g.w, c', k)
      && (Has(g.ch.create, k) || OwnedKey(g.w, g.c, k))
      && (Has(g.ch.create, k) ==> JoinedBy(g.w.cfg, e, g.c, c'))
      && (Has(g.ch.update, k) ==> Holds(g.w.cfg, e, Sub(c', ZoneKey(k))))
      && (!Has(g.ch.create, k) && !Has(g.ch.update, k) ==> Sub(c', ZoneKey(k)) == Sub(g.c, ZoneKey(k)))
  {
    var e, j := g.w.desired[k], g.Length();
    DesiredHas(g, k);
    assert g.PlannedAt(k);
    CompletePhases(g.w.cfg, g.Out(), g.index);
    DesiredClaimed(g, j, k);
    if e in g.ch.create {
      var n := CreatedOnTop(g, k);
      assert JoinsAt(g.w.cfg, e, g.c, g.After(j), n);
      FreshNotEmpty(g.w.cfg, e, n, Sub(g.c, ZoneKey(k)));
    } else if e in g.ch.update {
      OutApplies(g);
      WrittenHolds(g.c, g.w.cfg, g.Out(), g.index, e);
      HeldNotEmpty(g.w.cfg, e, Sub(g.After(j), ZoneKey(k)));
    } else {
      UntouchedLeft(g, j, k);
    }
  }

  lemma FreshNotEmpty(cfg: Account, e: Endpoint, n: nat, sub: map<nat, CfRecord>)
    requires e.targets != []
    ensures sub + FreshRecords(n, RecordsFor(cfg, e)) != map[]
  {
    FreshAt(n, RecordsFor(cfg, e), 0);
    assert n in sub + FreshRecords(n, RecordsFor(cfg, e));
  }

  lemma HeldNotEmpty(cfg: Account, e: Endpoint, sub: map<nat, CfRecord>)
    requires e.targets != [] && Holds(cfg, e, sub)
    ensures sub != map[]
  {
    var ids :| HoldsIn(cfg, e, sub, ids);
    assert ids[0] in ids;
  }

  /** Wherever a run stops, it leaves every key alone that is neither a changed record's nor its marker's: in any
      store, for any desired records, any policy and any keys under grace. */
  lemma CloudRunFrame(w: Goal, policy: string, kept: set<Key>, c: Cloud, run: CloudRun, j: nat, c': Cloud, l: RRKey)
    requires c.Valid() && RunsUpTo(w, policy, kept, c, run, j, c')
    requires Keyed(w.desired) && forall k :: k in w.desired ==> k.rtype != TXT
    requires !Refinement.Touched(w.s.owner, run.changes, l)
    ensures Sub(c', l) == Sub(c, l)
  {
    if !run.changes.Empty() {
      CurrentShape(w.s, c, run.first);
      KeepingIsDrawn(w.desired, Current(w.s, run.first), policy, kept, run.changes);
      DecoratedIsKeyDisjoint(w.s.owner, run.changes, ExistingIn(w.s.owner, run.second));
      Refinement.DecoratedTouches(w.s.owner, run.changes, ExistingIn(w.s.owner, run.second), l);
      assert forall e :: Rfc2136.InChanges(Out(w, run), e) ==> ZoneKey(e.Key()) != l;
      AtOthers(c, w.cfg, Out(w, run), run.index, j, l);
    }
  }

  lemma KeyUntouched(r: Owner, ch: Changes, k: Key)
    requires k.rtype != TXT && forall e :: Rfc2136.InChanges(ch, e) ==> e.Key() != k
    ensures !Refinement.Touched(r, ch, ZoneKey(k))
  {
  }

  /** A record without an own marker whose key is not desired keeps its ids and contents, in
      any store, under any policy, wherever the run stops. */
  lemma CloudForeignUntouched(w: Goal, policy: string, kept: set<Key>, c: Cloud, run: CloudRun, j: nat, c': Cloud,
                              k: Key)
    requires RunsUpTo(w, policy, kept, c, run, j, c') && c.Valid()
    requires Keyed(w.desired) && forall l :: l in w.desired ==> l.rtype != TXT
    requires k.rtype != TXT && k !in w.desired && k !in Current(w.s, run.first)
    ensures Sub(c', ZoneKey(k)) == Sub(c, ZoneKey(k))
  {
    CurrentShape(w.s, c, run.first);
    KeepingIsDrawn(w.desired, Current(w.s, run.first), policy, kept, run.changes);
    KeyUntouched(w.s.owner, run.changes, k);
    CloudRunFrame(w, policy, kept, c, run, j, c', ZoneKey(k));
  }
}
