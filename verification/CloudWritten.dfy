/** What a record written to Cloudflare looks like, wherever the run that wrote it stopped: traced back to the
    desired record or the marker it was written for, with the TTL and the proxied flag spelled out. */
module CloudWritten {
  import opened GoText
  import opened Endpoints
  import opened Planning
  import opened Registry
  import opened DnsZone
  import opened ZoneChoice
  import opened Convergence
  import opened CloudStore
  import opened Cloudflare
  import opened CloudRuns
  import TxtContent

  /** The call puts a record like `rec` into the store; an update keeps the zone of the old one. */
  predicate Puts(call: Call, rec: CfRecord) {
    || (call.Create? && call.rec == rec)
    || (call.Update? && call.key == rec.key && call.content == rec.content && call.ttl == rec.ttl
        && call.proxied == rec.proxied)
  }

  /** The record under `id` was there before, as it is. */
  predicate Kept(c: Cloud, c': Cloud, id: nat) {
    id in c.recs && id in c'.recs && c'.recs[id] == c.recs[id]
  }

  /** A record of the store was there before or put there by a call. */
  lemma {:induction false} RecordOrigin(c: Cloud, calls: seq<Call>, id: nat) returns (call: Call)
    requires id in Exec(c, calls).recs && !Kept(c, Exec(c, calls), id)
    ensures call in calls && Puts(call, Exec(c, calls).recs[id])
  {
    var init, last := calls[..|calls| - 1], calls[|calls| - 1];
    if Kept(Exec(c, init), Exec(c, calls), id) {
      call := RecordOrigin(c, init, id);
    } else {
      call := last;
    }
  }

  lemma CreatedFor(cfg: Account, e: Endpoint, call: Call, rec: CfRecord) returns (t: string)
    requires call in CreateCalls(cfg, e) && Puts(call, rec)
    ensures t in e.targets && Carries(cfg, e, t, rec)
  {
    var i :| 0 <= i < |CreateCalls(cfg, e)| && CreateCalls(cfg, e)[i] == call;
    RecordsAtKey(cfg, e, i);
    t := e.targets[i];
  }

  lemma BlockPutsFor(cfg: Account, e: Endpoint, refs: seq<nat>, call: Call, rec: CfRecord) returns (t: string)
    requires call in CreateCalls(cfg, e) || call in UpdateCalls(cfg, e, refs)
    requires Puts(call, rec)
    ensures t in e.targets && Carries(cfg, e, t, rec)
  {
    if call in CreateCalls(cfg, e) {
      t := CreatedFor(cfg, e, call, rec);
    } else {
      t := e.targets[0];
    }
  }

  lemma PutFor(cfg: Account, out: Changes, index: RecordIndex, call: Call, rec: CfRecord)
    returns (e: Endpoint, t: string)
    requires call in Calls(cfg, out, index) && Puts(call, rec)
    ensures (e in out.create || e in out.update) && t in e.targets && Carries(cfg, e, t, rec)
  {
    var i := FlattenMember(Blocks(cfg, out, index), call);
    BlockKeys(cfg, out, index);
    BlockAt(cfg, out, index, i);
    e := InOrderOf(out)[i];
    t := BlockPutsFor(cfg, e, RefsAt(index, ZoneKey(e.Key())), call, rec);
  }

  /** The record of a desired endpoint, as the provider documentation describes it: proxied as its own label says
      or else as the account's default, with an automatic TTL when it is proxied or its TTL is below a minute. */
  predicate DesiredRecord(cfg: Account, e: Endpoint, rec: CfRecord) {
    && e.rtype != TXT && rec.key == RRKey(e.name, Known(e.rtype)) && rec.content in e.targets
    && rec.proxied == (if PROXIED in e.labels then e.labels[PROXIED] == "true" else cfg.proxied)
    && rec.ttl == (if rec.proxied || e.ttl < 60 then 1 else e.ttl)
  }

  /** The marker of a key: never proxied, with an automatic TTL. */
  predicate MarkerRecord(r: Owner, k: Key, rec: CfRecord) {
    && rec.key == RRKey(TxtName(r, k), Known(TXT)) && rec.content == TxtContent.QuoteTxt(MarkerValue(r))
    && !rec.proxied && rec.ttl == 1
  }

  lemma MarkerContent(r: Owner)
    requires '"' !in r.id && '\\' !in r.id
    ensures TxtContent.QuoteTxt(MarkerValue(r)) == "\"heritage=munpae,munpae/owner=" + r.id + "\""
  {
    MarkerForm(r);
    HeadIsPlain();
    PlainBoth(MARKER_HEAD, r.id);
    TxtContent.QuotedAsIs(MarkerValue(r));
    assert MARKER_HEAD == "heritage=munpae,munpae/owner=";
    assert "\"" + (MARKER_HEAD + r.id) + "\"" == "\"" + MARKER_HEAD + r.id + "\"";
    assert "\"heritage=munpae,munpae/owner=" == "\"" + MARKER_HEAD;
  }

  lemma HeadIsPlain()
    ensures '"' !in MARKER_HEAD && '\\' !in MARKER_HEAD
  {
  }

  lemma PlainBoth(a: string, b: string)
    requires '"' !in a && '\\' !in a && '"' !in b && '\\' !in b
    ensures '"' !in a + b && '\\' !in a + b
  {
  }

  /** Every record that a run has created or rewritten by the time it stops is the record of a desired endpoint,
      or the marker of a desired key. */
  lemma WrittenRecord(w: Goal, policy: string, kept: set<Key>, c: Cloud, run: CloudRun, j: nat, c': Cloud, id: nat)
    requires Keyed(w.desired) && forall k :: k in w.desired ==> k.rtype != TXT
    requires RunsUpTo(w, policy, kept, c, run, j, c') && id in c'.recs && !Kept(c, c', id)
    ensures exists k :: WrittenAt(w, k, c'.recs[id])
  {
    var calls := Calls(w.cfg, Out(w, run), run.index);
    var call := RecordOrigin(c, calls[..j], id);
    assert call in calls;
    var e, t := PutFor(w.cfg, Out(w, run), run.index, call, c'.recs[id]);
    var k := PlannedFor(w, policy, kept, c, run, e);
    if e == w.desired[k] {
      DesiredCarries(w.cfg, e, t, c'.recs[id]);
    } else {
      MarkerCarries(w.cfg, w.s.owner, w.desired[k], t, c'.recs[id]);
    }
    assert WrittenAt(w, k, c'.recs[id]);
  }

  ghost predicate WrittenAt(w: Goal, k: Key, rec: CfRecord) {
    k in w.desired && (DesiredRecord(w.cfg, w.desired[k], rec) || MarkerRecord(w.s.owner, k, rec))
  }

  /** What a run creates or updates is a desired endpoint or the marker of one. */
  lemma PlannedFor(w: Goal, policy: string, kept: set<Key>, c: Cloud, run: CloudRun, e: Endpoint) returns (k: Key)
    requires Keyed(w.desired) && (forall k :: k in w.desired ==> k.rtype != TXT) && ReadsCloud(c, run.first)
    requires IsPlanKeeping(w.desired, Current(w.s, run.first), policy, kept, run.changes)
    requires e in Out(w, run).create || e in Out(w, run).update
    ensures k in w.desired && w.desired[k].Key() == k && (e == w.desired[k] || e == Marker(w.s.owner, w.desired[k]))
  {
    CurrentShape(w.s, c, run.first);
    KeepingIsDrawn(w.desired, Current(w.s, run.first), policy, kept, run.changes);
    DecoratedShape(w.s.owner, run.changes, ExistingIn(w.s.owner, run.second));
    if e in run.changes.create || e in run.changes.update {
      k := e.Key();
    } else {
      var existing := ExistingIn(w.s.owner, run.second);
      assert MarkerOf(w.s.owner, run.changes.create, existing, false, e);
      var f :| f in run.changes.create && e == Marker(w.s.owner, f)
        && (TxtName(w.s.owner, f.Key()) in existing) == false;
      k := f.Key();
    }
  }

  lemma DesiredCarries(cfg: Account, e: Endpoint, t: string, rec: CfRecord)
    requires e.rtype != TXT && t in e.targets && Carries(cfg, e, t, rec)
    ensures DesiredRecord(cfg, e, rec)
  {
  }

  lemma MarkerCarries(cfg: Account, r: Owner, f: Endpoint, t: string, rec: CfRecord)
    requires t in Marker(r, f).targets && Carries(cfg, Marker(r, f), t, rec)
    ensures MarkerRecord(r, f.Key(), rec)
  {
  }

  /** TXT records are never proxied and get the automatic TTL; so does everything that is proxied. */
  lemma WrittenFlags(w: Goal, policy: string, kept: set<Key>, c: Cloud, run: CloudRun, j: nat, c': Cloud, id: nat)
    requires Keyed(w.desired) && forall k :: k in w.desired ==> k.rtype != TXT
    requires RunsUpTo(w, policy, kept, c, run, j, c') && id in c'.recs && !Kept(c, c', id)
    ensures c'.recs[id].key.rtype == Known(TXT) ==> !c'.recs[id].proxied && c'.recs[id].ttl == 1
    ensures c'.recs[id].proxied ==> c'.recs[id].ttl == 1
  {
    WrittenRecord(w, policy, kept, c, run, j, c', id);
    var k :| WrittenAt(w, k, c'.recs[id]);
  }
}
