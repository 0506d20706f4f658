/** The deletion grace period (internal/reconcile/grace.go): a map of last sightings,
    refreshed, pruned and consulted on every run, against the plain history it stands for. */
module Grace {
  import opened GoText
  import opened Endpoints
  import opened Planning

  /** One run that reached the grace block: when, and which keys were desired and current. */
  datatype Visit = Visit(now: int, desired: set<Key>, current: set<Key>)

  function KeysOf(es: seq<Endpoint>): set<Key> {
    set e | e in es :: e.Key()
  }

  // ---- what the history says ---------------------------------------------------------

  /** When `k` was last seen: desired, or among the records of the very first run. */
  function LatestSighting(history: seq<Visit>, k: Key): Option<int> {
    if history == [] then None else
      var last := history[|history| - 1];
      if k in last.desired then Some(last.now)
      else if |history| == 1 && k in last.current then Some(last.now)
      else LatestSighting(history[..|history| - 1], k)
  }

  ghost predicate Ordered(history: seq<Visit>) {
    forall i, j :: 0 <= i < j < |history| ==> history[i].now <= history[j].now
  }

  /** `k` was seen no longer than `period` before the last run of the history. */
  predicate SeenLately(period: int, history: seq<Visit>, k: Key)
    requires history != []
  {
    var t := LatestSighting(history, k);
    t.Some? && history[|history| - 1].now - t.value <= period
  }

  // ---- what the map does ---------------------------------------------------------------

  function Seeded(seen: map<Key, int>, now: int, keys: set<Key>): map<Key, int> {
    (map k | k in keys :: now) + seen
  }

  function Observed(seen: map<Key, int>, now: int, keys: set<Key>): map<Key, int> {
    seen + map k | k in keys :: now
  }

  function Pruned(seen: map<Key, int>, now: int, period: int): map<Key, int> {
    map k | k in seen && now - seen[k] <= period :: seen[k]
  }

  /** The map after the runs of a history. */
  function Remembered(period: int, history: seq<Visit>): map<Key, int> {
    if history == [] then map[] else
      var init, v := history[..|history| - 1], history[|history| - 1];
      var before := Remembered(period, init);
      var seeded := if init == [] then Seeded(before, v.now, v.current) else before;
      Pruned(Observed(seeded, v.now, v.desired), v.now, period)
  }

  lemma {:induction false} SightingBefore(history: seq<Visit>, k: Key)
    requires Ordered(history) && LatestSighting(history, k).Some?
    ensures LatestSighting(history, k).value <= history[|history| - 1].now
  {
    var init := history[..|history| - 1];
    if init != [] && LatestSighting(init, k).Some? {
      SightingBefore(init, k);
    }
  }

  lemma FirstVisit(period: int, v: Visit, k: Key)
    ensures Remembered(period, [v]) ==
      Pruned(Observed(Seeded(map[], v.now, v.current), v.now, v.desired), v.now, period)
    ensures LatestSighting([v], k) == if k in v.desired || k in v.current then Some(v.now) else None
  {
    assert [v][..0] == [];
    assert Remembered(period, []) == map[] && LatestSighting([], k) == None;
  }

  /** The map refines the history: it holds exactly the keys seen within the period, with
      the time of their last sighting, whatever was dropped and seen again in between. */
  lemma {:induction false} MapIsHistory(period: int, history: seq<Visit>, k: Key)
    requires history != [] && Ordered(history)
    ensures k in Remembered(period, history) <==> SeenLately(period, history, k)
    ensures k in Remembered(period, history) ==> Some(Remembered(period, history)[k]) == LatestSighting(history, k)
  {
    var init, v := history[..|history| - 1], history[|history| - 1];
    if init != [] {
      assert init[|init| - 1].now <= v.now;
      MapIsHistory(period, init, k);
    } else {
      FirstVisit(period, v, k);
      assert history == [v];
    }
  }

  // ---- the object ------------------------------------------------------------------------

  function Filtered(es: seq<Endpoint>, seen: map<Key, int>): seq<Endpoint> {
    if es == [] then [] else
      var last := es[|es| - 1];
      Filtered(es[..|es| - 1], seen) + if last.Key() in seen then [] else [last]
  }

  lemma SeedStep(seen: map<Key, int>, now: int, keys: set<Key>, k: Key)
    ensures Seeded(seen, now, keys + {k}) ==
      if k in Seeded(seen, now, keys) then Seeded(seen, now, keys) else Seeded(seen, now, keys)[k := now]
  {
  }

  lemma ObserveStep(seen: map<Key, int>, now: int, keys: set<Key>, k: Key)
    ensures Observed(seen, now, keys + {k}) == Observed(seen, now, keys)[k := now]
  {
  }

  class GraceState {
    const period: int
    var lastSeen: map<Key, int>
    var seeded: bool
    /** The runs so far. */
    ghost var history: seq<Visit>

    constructor (period: int)
      ensures this.period == period && Valid() && history == []
    {
      this.period, lastSeen, seeded, history := period, map[], false, [];
    }

    ghost predicate Valid()
      reads this
    {
      && lastSeen == Remembered(period, history)
      && (seeded <==> history != [])
    }

    method Seed(now: int, eps: seq<Endpoint>)
      modifies this`lastSeen
      ensures lastSeen == Seeded(old(lastSeen), now, KeysOf(eps))
    {
      for i := 0 to |eps|
        invariant lastSeen == Seeded(old(lastSeen), now, KeysOf(eps[..i]))
      {
        assert eps[..i + 1] == eps[..i] + [eps[i]];
        SeedStep(old(lastSeen), now, KeysOf(eps[..i]), eps[i].Key());
        assert KeysOf(eps[..i + 1]) == KeysOf(eps[..i]) + {eps[i].Key()};
        if eps[i].Key() !in lastSeen {
          lastSeen := lastSeen[eps[i].Key() := now];
        }
      }
      assert eps[..|eps|] == eps;
    }

    method Observe(now: int, eps: seq<Endpoint>)
      modifies this`lastSeen
      ensures lastSeen == Observed(old(lastSeen), now, KeysOf(eps))
    {
      for i := 0 to |eps|
        invariant lastSeen == Observed(old(lastSeen), now, KeysOf(eps[..i]))
      {
        assert eps[..i + 1] == eps[..i] + [eps[i]];
        ObserveStep(old(lastSeen), now, KeysOf(eps[..i]), eps[i].Key());
        assert KeysOf(eps[..i + 1]) == KeysOf(eps[..i]) + {eps[i].Key()};
        lastSeen := lastSeen[eps[i].Key() := now];
      }
      assert eps[..|eps|] == eps;
    }

    /** Ranges over the map in an arbitrary order, deleting from it on the way. */
    method Prune(now: int)
      modifies this`lastSeen
      ensures lastSeen == Pruned(old(lastSeen), now, period)
    {
      var todo := lastSeen.Keys;
      while todo != {}
        invariant todo <= lastSeen.Keys
        invariant lastSeen ==
          map k | k in old(lastSeen) && (k in todo || now - old(lastSeen)[k] <= period) :: old(lastSeen)[k]
        decreases |todo|
      {
        var k :| k in todo;
        if now - lastSeen[k] > period {
          lastSeen := lastSeen - {k};
        }
        todo := todo - {k};
      }
    }

    predicate Protected(k: Key)
      reads this
    {
      k in lastSeen
    }

    /** Drops protected endpoints in place and returns how many are left. */
    method FilterDeletes(del: array<Endpoint>) returns (n: nat)
      modifies del
      ensures n <= del.Length && del[..n] == Filtered(old(del[..]), lastSeen)
    {
      n := 0;
      if del.Length == 0 {
        return;
      }
      ghost var was := del[..];
      for i := 0 to del.Length
        invariant n <= i
        invariant del[..n] == Filtered(was[..i], lastSeen)
        invariant forall j :: i <= j < del.Length ==> del[j] == was[j]
      {
        assert was[..i + 1][..i] == was[..i];
        var e := del[i];
        if !Protected(e.Key()) {
          del[n] := e;
          n := n + 1;
          assert del[..n] == Filtered(was[..i], lastSeen) + [e];
        }
      }
      assert was[..del.Length] == was;
    }

    /** The grace block of `Run`. */
    method Withhold(now: int, desired: seq<Endpoint>, current: seq<Endpoint>, deletes: seq<Endpoint>)
      returns (rest: seq<Endpoint>)
      requires Valid()
      modifies this
      ensures Valid() && history == old(history) + [Visit(now, KeysOf(desired), KeysOf(current))]
      ensures rest == Filtered(deletes, lastSeen)
    {
      if !seeded {
        Seed(now, current);
        seeded := true;
      }
      Observe(now, desired);
      Prune(now);
      history := history + [Visit(now, KeysOf(desired), KeysOf(current))];
      assert history[..|history| - 1] == old(history);
      var buffer := new Endpoint[|deletes|](i requires 0 <= i < |deletes| => deletes[i]);
      assert buffer[..] == deletes;
      var n := FilterDeletes(buffer);
      rest := buffer[..n];
    }
  }

  // ---- what is deleted -------------------------------------------------------------------

  lemma {:induction false} FilteredListed(es: seq<Endpoint>, seen: map<Key, int>)
    ensures forall e :: e in Filtered(es, seen) <==> e in es && e.Key() !in seen
    ensures DistinctKeys(es) ==> DistinctKeys(Filtered(es, seen))
  {
    if es != [] {
      var init := es[..|es| - 1];
      assert es == init + [es[|es| - 1]];
      FilteredListed(init, seen);
      var fs := Filtered(init, seen);
      if DistinctKeys(es) {
        forall i | 0 <= i < |fs| ensures fs[i].Key() != es[|es| - 1].Key() {
          assert fs[i] in fs;
          var j :| 0 <= j < |init| && init[j] == fs[i];
        }
      }
    }
  }

  /** A plan whose deletes were filtered keeps exactly the protected keys. */
  lemma FilteredPlanKeeps(desired: map<Key, Endpoint>, current: map<Key, Endpoint>, policy: string, ch: Changes,
                          seen: map<Key, int>)
    requires Keyed(current) && IsPlan(desired, current, policy, ch)
    ensures IsPlanKeeping(desired, current, policy, seen.Keys, ch.(delete := Filtered(ch.delete, seen)))
  {
    FilteredLists(ch.delete, Deletes(desired, current, policy), seen);
  }

  lemma FilteredLists(es: seq<Endpoint>, m: map<Key, Endpoint>, seen: map<Key, int>)
    requires Keyed(m) && Lists(es, m)
    ensures Lists(Filtered(es, seen), m - seen.Keys)
  {
    FilteredListed(es, seen);
  }

  /** Under `sync`, a run with grace deletes exactly the current keys that are not desired
      and were not seen within the period. */
  lemma DeletesExact(period: int, history: seq<Visit>, desired: map<Key, Endpoint>, current: map<Key, Endpoint>,
                     ch: Changes, k: Key)
    requires history != [] && Ordered(history) && Keyed(current)
    requires IsPlanKeeping(desired, current, "sync", Remembered(period, history).Keys, ch)
    ensures (exists e :: e in ch.delete && e.Key() == k) <==>
      k in current && k !in desired && !SeenLately(period, history, k)
  {
    var seen, d := Remembered(period, history), Deletes(desired, current, "sync");
    MapIsHistory(period, history, k);
    assert k in d - seen.Keys <==> k in current && k !in desired && k !in seen;
    if k in d - seen.Keys {
      assert current[k] in ch.delete && current[k].Key() == k;
    }
  }

  lemma {:induction false} SeenSince(history: seq<Visit>, i: nat, k: Key)
    requires i < |history| && Ordered(history)
    requires k in history[i].desired || (i == 0 && k in history[i].current)
    ensures LatestSighting(history, k).Some? && LatestSighting(history, k).value >= history[i].now
  {
    var n := |history| - 1;
    if i < n && k !in history[n].desired {
      SeenSince(history[..n], i, k);
    }
  }

  /** No flapping: a key desired at two runs at most one period apart, or current at the first
      run and desired again within the period, is not deleted by any run between them. */
  lemma NoFlap(period: int, history: seq<Visit>, i: nat, t: nat, j: nat, k: Key, desired: map<Key, Endpoint>,
               current: map<Key, Endpoint>, ch: Changes)
    requires Ordered(history) && i <= t <= j < |history| && Keyed(current)
    requires k in history[i].desired || (i == 0 && k in history[i].current)
    requires history[j].now - history[i].now <= period
    requires IsPlanKeeping(desired, current, "sync", Remembered(period, history[..t + 1]).Keys, ch)
    ensures !exists e :: e in ch.delete && e.Key() == k
  {
    var h := history[..t + 1];
    SeenSince(h, i, k);
    assert history[t].now <= history[j].now;
    DeletesExact(period, h, desired, current, ch, k);
  }
}
