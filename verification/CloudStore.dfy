/** Cloudflare as the provider sees it: single-value records with ids, spread over
    zones, changed one API call at a time. */
module CloudStore {
  import opened Endpoints
  import opened DnsZone

  /** One stored record. A zone is identified by its name. */
  datatype CfRecord = CfRecord(zone: string, key: RRKey, content: string, ttl: int, proxied: bool)

  /** The records by id; an id is never used twice. */
  datatype Cloud = Cloud(recs: map<nat, CfRecord>, next: nat) {
    predicate Valid() {
      forall id :: id in recs ==> id < next
    }
  }

  /** The records of one name and type. */
  function Sub(c: Cloud, k: RRKey): map<nat, CfRecord> {
    map id | id in c.recs && c.recs[id].key == k :: c.recs[id]
  }

  /** One API call that changes records. Updates and deletes carry the key they are meant
      for; `NoZone` is the error return for a name that no accessible zone contains. */
  datatype Call =
    | Create(rec: CfRecord)
    | Update(id: nat, key: RRKey, content: string, ttl: int, proxied: bool)
    | Delete(id: nat, key: RRKey)
    | NoZone

  function Do(c: Cloud, call: Call): Cloud {
    match call
    case Create(rec) => Cloud(c.recs[c.next := rec], c.next + 1)
    case Update(id, key, content, ttl, proxied) =>
      if id in c.recs then Cloud(c.recs[id := CfRecord(c.recs[id].zone, key, content, ttl, proxied)], c.next) else c
    case Delete(id, _) => Cloud(c.recs - {id}, c.next)
    case NoZone => c
  }

  function Exec(c: Cloud, calls: seq<Call>): Cloud {
    if calls == [] then c else Do(Exec(c, calls[..|calls| - 1]), calls[|calls| - 1])
  }

  lemma {:induction false} ExecAppend(c: Cloud, a: seq<Call>, b: seq<Call>)
    ensures Exec(c, a + b) == Exec(Exec(c, a), b)
  {
    if b == [] {
      assert a + b == a;
    } else {
      ExecAppend(c, a, b[..|b| - 1]);
      assert (a + b)[..|a + b| - 1] == a + b[..|b| - 1];
    }
  }

  lemma ExecNone(c: Cloud, calls: seq<Call>)
    ensures Exec(c, calls[..0]) == c
  {
    assert calls[..0] == [];
  }

  lemma ExecOneMore(c: Cloud, calls: seq<Call>, t: nat)
    requires t < |calls|
    ensures Exec(c, calls[..t + 1]) == Do(Exec(c, calls[..t]), calls[t])
  {
    assert calls[..t + 1][..t] == calls[..t];
  }

  // ---- calls prepared from one listing and carried out later ------------------------

  /** `c` has come about from `c0` by calls that were addressed in `c0`. */
  ghost predicate Later(c0: Cloud, c: Cloud) {
    && c.Valid() && c0.next <= c.next
    && forall id :: id in c.recs && id < c0.next ==> id in c0.recs && c.recs[id].key == c0.recs[id].key
  }

  /** The call is meant for records at `k`. */
  predicate For(call: Call, k: RRKey) {
    match call
    case Create(rec) => rec.key == k
    case Update(_, key, _, _, _) => key == k
    case Delete(_, key) => key == k
    case NoZone => true
  }

  /** The call is not meant for records at `l`. */
  predicate Away(call: Call, l: RRKey) {
    call.NoZone? || !For(call, l)
  }

  /** The id was listed under the key the call is meant for. */
  predicate Addressed(c0: Cloud, call: Call) {
    call.Update? || call.Delete? ==> call.id in c0.recs && c0.recs[call.id].key == call.key
  }

  ghost predicate AllAddressed(c0: Cloud, calls: seq<Call>) {
    forall call :: call in calls ==> Addressed(c0, call)
  }

  lemma DoLater(c0: Cloud, c: Cloud, call: Call)
    requires c0.Valid() && Later(c0, c) && Addressed(c0, call)
    ensures Later(c0, Do(c, call))
  {
  }

  lemma DoFrame(c0: Cloud, c: Cloud, call: Call, l: RRKey)
    requires c0.Valid() && Later(c0, c) && Addressed(c0, call) && Away(call, l)
    ensures Sub(Do(c, call), l) == Sub(c, l)
  {
    match call
    case Create(rec) => assert c.next !in c.recs;
    case Update(id, key, content, ttl, proxied) =>
    case Delete(id, key) =>
    case NoZone =>
  }

  lemma {:induction false} ExecLater(c0: Cloud, c: Cloud, calls: seq<Call>)
    requires c0.Valid() && Later(c0, c) && AllAddressed(c0, calls)
    ensures Later(c0, Exec(c, calls))
  {
    if calls != [] {
      var init := calls[..|calls| - 1];
      assert calls[|calls| - 1] in calls;
      ExecLater(c0, c, init);
      DoLater(c0, Exec(c, init), calls[|calls| - 1]);
    }
  }

  /** Calls meant for other keys leave a key's records alone. */
  lemma {:induction false} ExecFrame(c0: Cloud, c: Cloud, calls: seq<Call>, l: RRKey)
    requires c0.Valid() && Later(c0, c) && AllAddressed(c0, calls)
    requires forall call :: call in calls ==> Away(call, l)
    ensures Sub(Exec(c, calls), l) == Sub(c, l)
  {
    if calls != [] {
      var init := calls[..|calls| - 1];
      assert calls[|calls| - 1] in calls;
      ExecFrame(c0, c, init, l);
      ExecLater(c0, c, init);
      DoFrame(c0, Exec(c, init), calls[|calls| - 1], l);
    }
  }

  // ---- one block of calls per changed key -----------------------------------------------

  datatype Block = Block(key: RRKey, calls: seq<Call>)

  function Flatten(blocks: seq<Block>): seq<Call> {
    if blocks == [] then [] else Flatten(blocks[..|blocks| - 1]) + blocks[|blocks| - 1].calls
  }

  lemma {:induction false} FlattenAppend(a: seq<Block>, b: seq<Block>)
    ensures Flatten(a + b) == Flatten(a) + Flatten(b)
  {
    if b == [] {
      assert a + b == a;
    } else {
      FlattenAppend(a, b[..|b| - 1]);
      assert (a + b)[..|a + b| - 1] == a + b[..|b| - 1];
    }
  }

  lemma {:induction false} FlattenLast(blocks: seq<Block>, i: nat)
    requires i < |blocks|
    ensures Flatten(blocks[..i + 1]) == Flatten(blocks[..i]) + blocks[i].calls
  {
    assert blocks[..i + 1][..i] == blocks[..i];
  }

  lemma {:induction false} FlattenAround(a: seq<Block>, x: Block, b: seq<Block>)
    ensures Flatten(a + [x] + b) == Flatten(a) + x.calls + Flatten(b)
  {
    FlattenAppend(a + [x], b);
    assert (a + [x])[..|a|] == a;
  }

  lemma {:induction false} FlattenSplit(blocks: seq<Block>, i: nat)
    requires i < |blocks|
    ensures Flatten(blocks) == Flatten(blocks[..i]) + blocks[i].calls + Flatten(blocks[i + 1..])
  {
    assert blocks == blocks[..i] + [blocks[i]] + blocks[i + 1..];
    FlattenAround(blocks[..i], blocks[i], blocks[i + 1..]);
  }

  lemma {:induction false} FlattenMember(blocks: seq<Block>, call: Call) returns (i: nat)
    requires call in Flatten(blocks)
    ensures i < |blocks| && call in blocks[i].calls
  {
    var n := |blocks| - 1;
    if call in blocks[n].calls {
      i := n;
    } else {
      i := FlattenMember(blocks[..n], call);
    }
  }

  ghost predicate BlockFor(c0: Cloud, b: Block) {
    forall call :: call in b.calls ==> For(call, b.key) && Addressed(c0, call)
  }

  /** Every block was prepared from `c0`, and no two are for the same key. */
  ghost predicate Prepared(c0: Cloud, blocks: seq<Block>) {
    && c0.Valid()
    && (forall i :: 0 <= i < |blocks| ==> BlockFor(c0, blocks[i]))
    && (forall i, j :: 0 <= i < j < |blocks| ==> blocks[i].key != blocks[j].key)
  }

  lemma BlocksAway(c0: Cloud, blocks: seq<Block>, l: RRKey)
    requires forall b :: b in blocks ==> BlockFor(c0, b)
    ensures AllAddressed(c0, Flatten(blocks))
    ensures (forall b :: b in blocks ==> b.key != l) ==> forall call :: call in Flatten(blocks) ==> Away(call, l)
  {
    forall call | call in Flatten(blocks)
      ensures Addressed(c0, call) && ((forall b :: b in blocks ==> b.key != l) ==> Away(call, l))
    {
      var i := FlattenMember(blocks, call);
      assert BlockFor(c0, blocks[i]);
    }
  }

  /** How many calls of block `i` are among the first `j` calls. */
  function Progress(blocks: seq<Block>, i: nat, j: nat): (t: nat)
    requires i < |blocks|
    ensures t <= |blocks[i].calls|
  {
    var before := |Flatten(blocks[..i])|;
    if j <= before then 0
    else if j - before <= |blocks[i].calls| then j - before
    else |blocks[i].calls|
  }

  lemma PrefixCalls(blocks: seq<Block>, i: nat, j: nat) returns (a: seq<Call>, b: seq<Call>)
    requires i < |blocks| && j <= |Flatten(blocks)|
    ensures Flatten(blocks)[..j] == a + blocks[i].calls[..Progress(blocks, i, j)] + b
    ensures forall call :: call in a ==> call in Flatten(blocks[..i])
    ensures Progress(blocks, i, j) > 0 ==> a == Flatten(blocks[..i])
    ensures forall call :: call in b ==> call in Flatten(blocks[i + 1..])
  {
    var f, p, q := Flatten(blocks), Flatten(blocks[..i]), Flatten(blocks[i + 1..]);
    FlattenSplit(blocks, i);
    var n := |p| + |blocks[i].calls|;
    if j <= |p| {
      a, b := p[..j], [];
      assert f[..j] == a;
      assert a + blocks[i].calls[..0] + b == a;
    } else if j <= n {
      a, b := p, [];
      assert f[..j] == p + blocks[i].calls[..j - |p|];
      assert p + blocks[i].calls[..j - |p|] + [] == p + blocks[i].calls[..j - |p|];
    } else {
      a, b := p, q[..j - n];
      assert blocks[i].calls[..|blocks[i].calls|] == blocks[i].calls;
      assert f[..j] == p + blocks[i].calls + q[..j - n];
    }
  }

  /** Locality. After any number `j` of the calls, the records of a changed key are what
      that key's own calls made of them, on a store that still held the listed ones. */
  lemma PrefixEffect(c0: Cloud, blocks: seq<Block>, j: nat, i: nat) returns (c1: Cloud)
    requires Prepared(c0, blocks) && i < |blocks| && j <= |Flatten(blocks)|
    ensures Later(c0, c1) && Sub(c1, blocks[i].key) == Sub(c0, blocks[i].key)
    ensures Sub(Exec(c0, Flatten(blocks)[..j]), blocks[i].key) ==
      Sub(Exec(c1, blocks[i].calls[..Progress(blocks, i, j)]), blocks[i].key)
  {
    var k, mid := blocks[i].key, blocks[i].calls[..Progress(blocks, i, j)];
    var a, b := PrefixCalls(blocks, i, j);
    BlocksAway(c0, blocks[..i], k);
    BlocksAway(c0, blocks[i + 1..], k);
    assert AllAddressed(c0, mid) by { assert BlockFor(c0, blocks[i]); }
    c1 := Exec(c0, a);
    ExecFrame(c0, c0, a, k);
    ExecLater(c0, c0, a);
    ExecLater(c0, c1, mid);
    ExecFrame(c0, Exec(c1, mid), b, k);
    ExecAppend(c0, a, mid);
    ExecAppend(c0, a + mid, b);
  }

  /** A key without a block is left alone by any number of the calls. */
  lemma PrefixFrame(c0: Cloud, blocks: seq<Block>, j: nat, l: RRKey)
    requires Prepared(c0, blocks) && j <= |Flatten(blocks)|
    requires forall b :: b in blocks ==> b.key != l
    ensures Sub(Exec(c0, Flatten(blocks)[..j]), l) == Sub(c0, l)
  {
    BlocksAway(c0, blocks, l);
    ExecFrame(c0, c0, Flatten(blocks)[..j], l);
  }

  lemma PrefixLater(c0: Cloud, blocks: seq<Block>, j: nat)
    requires Prepared(c0, blocks) && j <= |Flatten(blocks)|
    ensures Later(c0, Exec(c0, Flatten(blocks)[..j]))
  {
    BlocksAway(c0, blocks, RRKey("", Other("")));
    ExecLater(c0, c0, Flatten(blocks)[..j]);
  }
}
