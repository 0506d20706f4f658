/** Diffing desired endpoints against the current, owned ones (internal/plan). */
module Planning {
  import opened GoText
  import opened Endpoints

  const PROXIED: string := "cloudflare-proxied"

  datatype Changes = Changes(create: seq<Endpoint>, update: seq<Endpoint>, updateOld: seq<Endpoint>,
                             delete: seq<Endpoint>)
  {
    predicate Empty() {
      |create| + |update| + |delete| == 0
    }
  }

  /** What `labels[name]` reads in Go: the empty string when absent. */
  function LabelOf(labels: Labels, name: string): string {
    if name in labels then labels[name] else ""
  }

  /** What it means for a desired endpoint to need no update: same targets in any
      order, the TTL it asks for (0 asks for none), the proxied flag it declares. */
  ghost predicate Same(want: Endpoint, have: Endpoint) {
    && (want.ttl == 0 || want.ttl == have.ttl)
    && multiset(want.targets) == multiset(have.targets)
    && (PROXIED in want.labels ==> want.labels[PROXIED] == LabelOf(have.labels, PROXIED))
  }

  /** `equal`: compares sorted copies of the targets position by position. */
  method Equal(a: Endpoint, b: Endpoint) returns (r: bool)
    ensures r <==> Same(a, b)
  {
    if (a.ttl != 0 && a.ttl != b.ttl) || |a.targets| != |b.targets| {
      assert |multiset(a.targets)| == |a.targets| && |multiset(b.targets)| == |b.targets|;
      return false;
    }
    if PROXIED in a.labels && a.labels[PROXIED] != LabelOf(b.labels, PROXIED) {
      return false;
    }
    r := SameSorted(a.targets, b.targets);
  }

  /** The sort-and-compare tail of `equal`. */
  method SameSorted(a: seq<string>, b: seq<string>) returns (r: bool)
    requires |a| == |b|
    ensures r <==> multiset(a) == multiset(b)
  {
    var x, y := Sort(a), Sort(b);
    assert |x| == |y| && (x == y <==> multiset(a) == multiset(b)) by {
      SortSorts(a);
      SortSorts(b);
      SortedEqualIffSameMultiset(a, b);
    }
    var i := 0;
    while i < |x|
      invariant 0 <= i <= |x|
      invariant forall j :: 0 <= j < i ==> x[j] == y[j]
    {
      if x[i] != y[i] {
        return false;
      }
      i := i + 1;
    }
    assert x == y;
    return true;
  }

  /** `index`: last wins on a duplicate key. */
  method Index(eps: seq<Endpoint>) returns (m: map<Key, Endpoint>)
    ensures m == IndexOf(eps)
  {
    m := map[];
    for i := 0 to |eps|
      invariant m == IndexOf(eps[..i])
    {
      m := m[eps[i].Key() := eps[i]];
      assert eps[..i + 1][..i] == eps[..i];
    }
    assert eps[..|eps|] == eps;
  }

  // ---- what a plan is -------------------------------------------------------

  function Creates(desired: map<Key, Endpoint>, current: map<Key, Endpoint>): map<Key, Endpoint> {
    map k | k in desired && k !in current :: desired[k]
  }

  ghost function Updates(desired: map<Key, Endpoint>, current: map<Key, Endpoint>): map<Key, Endpoint> {
    map k | k in desired && k in current && !Same(desired[k], current[k]) :: desired[k]
  }

  function Deletes(desired: map<Key, Endpoint>, current: map<Key, Endpoint>, policy: string): map<Key, Endpoint> {
    if policy == "sync" then map k | k in current && k !in desired :: current[k] else map[]
  }

  ghost predicate Parallel(update: seq<Endpoint>, updateOld: seq<Endpoint>, current: map<Key, Endpoint>) {
    && |updateOld| == |update|
    && forall i :: 0 <= i < |update| ==> update[i].Key() in current && updateOld[i] == current[update[i].Key()]
  }

  /** `ch` is a plan for these maps, whatever order the maps were ranged over. */
  ghost predicate IsPlan(desired: map<Key, Endpoint>, current: map<Key, Endpoint>, policy: string, ch: Changes) {
    && Lists(ch.create, Creates(desired, current))
    && Lists(ch.update, Updates(desired, current))
    && Parallel(ch.update, ch.updateOld, current)
    && Lists(ch.delete, Deletes(desired, current, policy))
  }

  /** The endpoints of a map that a loop over it has already visited. */
  ghost function Visited(m: map<Key, Endpoint>, todo: set<Key>): map<Key, Endpoint> {
    map k | k in m && k !in todo :: m[k]
  }

  lemma VisitOne(desired: map<Key, Endpoint>, todo: set<Key>, k: Key, current: map<Key, Endpoint>)
    requires k in todo && k in desired
    ensures var was, now := Visited(desired, todo), Visited(desired, todo - {k});
      && now == was[k := desired[k]]
      && Creates(now, current) ==
           (if k in current then Creates(was, current) else Creates(was, current)[k := desired[k]])
      && Updates(now, current) ==
           (if k in current && !Same(desired[k], current[k]) then Updates(was, current)[k := desired[k]]
            else Updates(was, current))
      && k !in was
  {
    var was, now := Visited(desired, todo), Visited(desired, todo - {k});
    assert now == was[k := desired[k]];
    assert Creates(now, current) ==
      if k in current then Creates(was, current) else Creates(was, current)[k := desired[k]];
  }

  /** `Calculate`: ranges over both maps in an arbitrary order. */
  method Calculate(desired: seq<Endpoint>, current: seq<Endpoint>, policy: string) returns (ch: Changes)
    ensures IsPlan(IndexOf(desired), IndexOf(current), policy, ch)
  {
    var desiredByKey := Index(desired);
    var currentByKey := Index(current);
    var create, update, updateOld := Wanted(desiredByKey, currentByKey);
    var delete := [];
    if policy == "sync" {
      delete := Stale(desiredByKey, currentByKey);
    }
    ch := Changes(create, update, updateOld, delete);
  }

  /** What the first loop has collected once it has visited all desired keys but those in `todo`. */
  ghost predicate WantedSoFar(desired: map<Key, Endpoint>, current: map<Key, Endpoint>, todo: set<Key>,
                              create: seq<Endpoint>, update: seq<Endpoint>, updateOld: seq<Endpoint>) {
    && Lists(create, Creates(Visited(desired, todo), current))
    && Lists(update, Updates(Visited(desired, todo), current))
    && Parallel(update, updateOld, current)
  }

  lemma VisitMissing(desired: map<Key, Endpoint>, current: map<Key, Endpoint>, todo: set<Key>, create: seq<Endpoint>,
                     update: seq<Endpoint>, updateOld: seq<Endpoint>, k: Key)
    requires Keyed(desired) && k in todo && k in desired && k !in current
    requires WantedSoFar(desired, current, todo, create, update, updateOld)
    ensures WantedSoFar(desired, current, todo - {k}, create + [desired[k]], update, updateOld)
  {
    VisitOne(desired, todo, k, current);
    ListsExtend(create, Creates(Visited(desired, todo), current), desired[k]);
  }

  lemma VisitDifferent(desired: map<Key, Endpoint>, current: map<Key, Endpoint>, todo: set<Key>, create: seq<Endpoint>,
                       update: seq<Endpoint>, updateOld: seq<Endpoint>, k: Key)
    requires Keyed(desired) && k in todo && k in desired && k in current && !Same(desired[k], current[k])
    requires WantedSoFar(desired, current, todo, create, update, updateOld)
    ensures WantedSoFar(desired, current, todo - {k}, create, update + [desired[k]], updateOld + [current[k]])
  {
    VisitOne(desired, todo, k, current);
    ListsExtend(update, Updates(Visited(desired, todo), current), desired[k]);
  }

  lemma VisitSame(desired: map<Key, Endpoint>, current: map<Key, Endpoint>, todo: set<Key>, create: seq<Endpoint>,
                  update: seq<Endpoint>, updateOld: seq<Endpoint>, k: Key)
    requires k in todo && k in desired && k in current && Same(desired[k], current[k])
    requires WantedSoFar(desired, current, todo, create, update, updateOld)
    ensures WantedSoFar(desired, current, todo - {k}, create, update, updateOld)
  {
    VisitOne(desired, todo, k, current);
  }

  lemma NothingWanted(desired: map<Key, Endpoint>, current: map<Key, Endpoint>)
    ensures WantedSoFar(desired, current, desired.Keys, [], [], [])
  {
    assert Visited(desired, desired.Keys) == map[];
  }

  /** The first loop of `Calculate`: what the desired map asks for. */
  method Wanted(desired: map<Key, Endpoint>, current: map<Key, Endpoint>)
    returns (create: seq<Endpoint>, update: seq<Endpoint>, updateOld: seq<Endpoint>)
    requires Keyed(desired)
    ensures Lists(create, Creates(desired, current)) && Lists(update, Updates(desired, current))
    ensures Parallel(update, updateOld, current)
  {
    create, update, updateOld := [], [], [];
    var todo := desired.Keys;
    NothingWanted(desired, current);
    while todo != {}
      invariant todo <= desired.Keys && WantedSoFar(desired, current, todo, create, update, updateOld)
      decreases |todo|
    {
      var k :| k in todo;
      if k !in current {
        VisitMissing(desired, current, todo, create, update, updateOld, k);
        create := create + [desired[k]];
      } else {
        var same := Equal(desired[k], current[k]);
        if !same {
          VisitDifferent(desired, current, todo, create, update, updateOld, k);
          update, updateOld := update + [desired[k]], updateOld + [current[k]];
        } else {
          VisitSame(desired, current, todo, create, update, updateOld, k);
        }
      }
      todo := todo - {k};
    }
    assert Visited(desired, todo) == desired;
  }

  lemma VisitStale(desired: map<Key, Endpoint>, current: map<Key, Endpoint>, todo: set<Key>, k: Key)
    requires k in todo && k in current
    ensures var was, now :=
      Deletes(desired, Visited(current, todo), "sync"), Deletes(desired, Visited(current, todo - {k}), "sync");
      now == (if k in desired then was else was[k := current[k]]) && k !in was
  {
    assert Visited(current, todo - {k}) == Visited(current, todo)[k := current[k]];
  }

  /** The second loop of `Calculate`: current records no longer desired. */
  method Stale(desired: map<Key, Endpoint>, current: map<Key, Endpoint>) returns (delete: seq<Endpoint>)
    requires Keyed(current)
    ensures Lists(delete, Deletes(desired, current, "sync"))
  {
    delete := [];
    var todo := current.Keys;
    assert Visited(current, todo) == map[];
    while todo != {}
      invariant todo <= current.Keys
      invariant Lists(delete, Deletes(desired, Visited(current, todo), "sync"))
      decreases |todo|
    {
      var k :| k in todo;
      VisitStale(desired, current, todo, k);
      if k !in desired {
        ListsExtend(delete, Deletes(desired, Visited(current, todo), "sync"), current[k]);
        delete := delete + [current[k]];
      }
      todo := todo - {k};
    }
    assert Visited(current, todo) == current;
  }

  // ---- what a plan achieves -------------------------------------------------

  /** Carrying out a plan on a key-indexed state. */
  function Carried(current: map<Key, Endpoint>, ch: Changes): map<Key, Endpoint> {
    (current + IndexOf(ch.create) + IndexOf(ch.update)) - IndexOf(ch.delete).Keys
  }

  ghost predicate Disjoint(es: seq<Endpoint>, fs: seq<Endpoint>) {
    forall e, f :: e in es && f in fs ==> e.Key() != f.Key()
  }

  ghost predicate Has(es: seq<Endpoint>, k: Key) {
    exists e :: e in es && e.Key() == k
  }

  /** The three change lists touch different keys, and no key twice: the
      condition under which Cloudflare's index, built before anything is written, stays right. */
  ghost predicate KeyDisjoint(ch: Changes) {
    && DistinctKeys(ch.create) && DistinctKeys(ch.update) && DistinctKeys(ch.delete)
    && Disjoint(ch.create, ch.update) && Disjoint(ch.create, ch.delete) && Disjoint(ch.update, ch.delete)
  }

  lemma PlanIsKeyDisjoint(desired: map<Key, Endpoint>, current: map<Key, Endpoint>, policy: string, ch: Changes)
    requires Keyed(current) && IsPlan(desired, current, policy, ch)
    ensures KeyDisjoint(ch)
    ensures forall i :: 0 <= i < |ch.update| ==> ch.updateOld[i].Key() == ch.update[i].Key()
  {
  }

  /** `IsPlan` after the grace period has withheld the deletes of `kept` keys. */
  ghost predicate IsPlanKeeping(desired: map<Key, Endpoint>, current: map<Key, Endpoint>, policy: string,
                                kept: set<Key>, ch: Changes)
  {
    && Lists(ch.create, Creates(desired, current))
    && Lists(ch.update, Updates(desired, current))
    && Parallel(ch.update, ch.updateOld, current)
    && Lists(ch.delete, Deletes(desired, current, policy) - kept)
  }

  /** The map a plan for `desired` and `current` turns `current` into. */
  ghost function Target(desired: map<Key, Endpoint>, current: map<Key, Endpoint>, policy: string): map<Key, Endpoint> {
    current + Creates(desired, current) + Updates(desired, current) - Deletes(desired, current, policy).Keys
  }

  lemma CarriedIsTarget(desired: map<Key, Endpoint>, current: map<Key, Endpoint>, policy: string, ch: Changes)
    requires Keyed(desired) && Keyed(current) && IsPlan(desired, current, policy, ch)
    ensures Carried(current, ch) == Target(desired, current, policy)
  {
    ListsIndex(ch.create, Creates(desired, current));
    ListsIndex(ch.update, Updates(desired, current));
    ListsIndex(ch.delete, Deletes(desired, current, policy));
  }

  lemma TargetAt(desired: map<Key, Endpoint>, current: map<Key, Endpoint>, policy: string, k: Key)
    ensures k in Target(desired, current, policy) <==> k in desired || (k in current && policy != "sync")
    ensures k in Target(desired, current, policy) ==>
      Target(desired, current, policy)[k] ==
        if k in desired && (k in current ==> !Same(desired[k], current[k])) then desired[k] else current[k]
  {
    var c, u, d := Creates(desired, current), Updates(desired, current), Deletes(desired, current, policy);
    assert k in c <==> k in desired && k !in current;
    assert k in u <==> k in desired && k in current && !Same(desired[k], current[k]);
    assert k in d <==> policy == "sync" && k in current && k !in desired;
  }

  lemma NothingToPlan(desired: map<Key, Endpoint>, current: map<Key, Endpoint>, policy: string, ch: Changes)
    requires IsPlan(desired, current, policy, ch)
    ensures ch.Empty() <==>
      && (forall k :: k in desired ==> k in current && Same(desired[k], current[k]))
      && (policy == "sync" ==> current.Keys <= desired.Keys)
  {
    if ch.Empty() {
      assert Creates(desired, current).Keys == {} && Updates(desired, current).Keys == {};
      assert Deletes(desired, current, policy).Keys == {};
      assert forall k :: k in desired && k !in current <==> k in Creates(desired, current);
      assert forall k :: policy == "sync" && k in current && k !in desired <==> k in Deletes(desired, current, policy);
      assert forall k ::
        k in desired && k in current && !Same(desired[k], current[k]) <==> k in Updates(desired, current);
    } else if ch.create != [] {
      assert ch.create[0] in ch.create;
    } else if ch.update != [] {
      assert ch.update[0] in ch.update;
    } else {
      assert ch.delete[0] in ch.delete;
    }
  }

  /** Carrying out a plan reaches the desired state up to `equal` (overlaid on the
      current one unless the policy deletes), keeps every record that needed no
      change, and leaves nothing to plan. */
  lemma PlanReachesDesired(desired: map<Key, Endpoint>, current: map<Key, Endpoint>, policy: string, ch: Changes,
                           again: Changes)
    requires Keyed(desired) && Keyed(current) && IsPlan(desired, current, policy, ch)
    requires IsPlan(desired, Carried(current, ch), policy, again)
    ensures Carried(current, ch).Keys == if policy == "sync" then desired.Keys else desired.Keys + current.Keys
    ensures forall k :: k in desired ==> Same(desired[k], Carried(current, ch)[k])
    ensures forall k ::
      k in desired && k in current && Same(desired[k], current[k]) ==> Carried(current, ch)[k] == current[k]
    ensures forall k ::
      k in Carried(current, ch) && k !in desired ==> k in current && Carried(current, ch)[k] == current[k]
    ensures again.Empty()
  {
    CarriedIsTarget(desired, current, policy, ch);
    TargetReplans(desired, current, policy, again);
  }

  lemma TargetReplans(desired: map<Key, Endpoint>, current: map<Key, Endpoint>, policy: string, again: Changes)
    requires IsPlan(desired, Target(desired, current, policy), policy, again)
    ensures var after := Target(desired, current, policy);
      && after.Keys == (if policy == "sync" then desired.Keys else desired.Keys + current.Keys)
      && (forall k :: k in desired ==> Same(desired[k], after[k]))
      && (forall k :: k in desired && k in current && Same(desired[k], current[k]) ==> after[k] == current[k])
      && (forall k :: k in after && k !in desired ==> k in current && after[k] == current[k])
    ensures again.Empty()
  {
    TargetShape(desired, current, policy);
    NothingToPlan(desired, Target(desired, current, policy), policy, again);
  }

  lemma TargetShape(desired: map<Key, Endpoint>, current: map<Key, Endpoint>, policy: string)
    ensures var after := Target(desired, current, policy);
      && after.Keys == (if policy == "sync" then desired.Keys else desired.Keys + current.Keys)
      && (forall k :: k in desired ==> Same(desired[k], after[k]))
      && (forall k :: k in desired && k in current && Same(desired[k], current[k]) ==> after[k] == current[k])
      && (forall k :: k in after && k !in desired ==> k in current && after[k] == current[k])
  {
    var after := Target(desired, current, policy);
    forall k ensures
      && (k in after <==> k in desired || (k in current && policy != "sync"))
      && (k in after ==>
           after[k] ==
           if k in desired && (k in current ==> !Same(desired[k], current[k])) then desired[k] else current[k])
    {
      TargetAt(desired, current, policy, k);
    }
  }

  /** Two plans for the same maps differ only in the order of their lists. */
  lemma PlanOrderIrrelevant(desired: map<Key, Endpoint>, current: map<Key, Endpoint>, policy: string, p: Changes,
                            q: Changes)
    requires Keyed(desired) && Keyed(current)
    requires IsPlan(desired, current, policy, p) && IsPlan(desired, current, policy, q)
    ensures multiset(p.create) == multiset(q.create)
    ensures multiset(p.update) == multiset(q.update) && multiset(p.updateOld) == multiset(q.updateOld)
    ensures multiset(p.delete) == multiset(q.delete)
  {
    ListsSameMultiset(p.create, q.create, Creates(desired, current));
    ListsSameMultiset(p.update, q.update, Updates(desired, current));
    ListsSameMultiset(p.delete, q.delete, Deletes(desired, current, policy));
    ParallelLists(p.update, p.updateOld, Updates(desired, current), current);
    ParallelLists(q.update, q.updateOld, Updates(desired, current), current);
    ListsSameMultiset(p.updateOld, q.updateOld, map k | k in Updates(desired, current) :: current[k]);
  }

  lemma ParallelLists(update: seq<Endpoint>, updateOld: seq<Endpoint>, m: map<Key, Endpoint>,
                      current: map<Key, Endpoint>)
    requires Keyed(current) && Lists(update, m) && Parallel(update, updateOld, current) && m.Keys <= current.Keys
      && Keyed(m)
    ensures Lists(updateOld, map k | k in m :: current[k])
  {
    var was := map k | k in m :: current[k];
    forall e | e in updateOld ensures e.Key() in was && was[e.Key()] == e {
      var i :| 0 <= i < |updateOld| && updateOld[i] == e;
      assert update[i] in update;
    }
    forall k | k in was ensures was[k] in updateOld {
      var i :| 0 <= i < |update| && update[i] == m[k];
      assert updateOld[i] == current[k];
    }
  }

  lemma DistinctMultiplicity(es: seq<Endpoint>, e: Endpoint)
    requires DistinctKeys(es)
    ensures multiset(es)[e] == if e in es then 1 else 0
  {
    if e in es {
      var i :| 0 <= i < |es| && es[i] == e;
      assert es == es[..i] + [e] + es[i + 1..];
      assert e !in es[..i] && e !in es[i + 1..];
    }
  }

  lemma ListsSameMultiset(p: seq<Endpoint>, q: seq<Endpoint>, m: map<Key, Endpoint>)
    requires Lists(p, m) && Lists(q, m)
    ensures multiset(p) == multiset(q)
  {
    forall e ensures multiset(p)[e] == multiset(q)[e] {
      DistinctMultiplicity(p, e);
      DistinctMultiplicity(q, e);
    }
  }
}
