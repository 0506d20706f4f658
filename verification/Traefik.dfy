/** The Traefik source (internal/source/traefik.go): hosts from router rules, targets from
    entrypoint anchors or overrides, and one winner per host whatever order Go ranges over its maps in. */
module Traefik {
  import opened GoText
  import opened Endpoints
  import opened Rules

  /** The label prefix and the entrypoints this instance publishes (none: all of them). */
  datatype Config = Config(prefix: string, entrypoints: seq<string>)

  const DNS_DOT: string := ".dns."
  const DNS_SLASH: string := ".dns/"
  const ENTRYPOINT: string := "traefik.entrypoint."
  const ROUTERS: string := "traefik.http.routers."

  /** `field`: the dotted label, even an empty one, hides the slash label. */
  function Field(cfg: Config, labels: Labels, field: string): string {
    if cfg.prefix + DNS_DOT + field in labels then labels[cfg.prefix + DNS_DOT + field]
    else if cfg.prefix + DNS_SLASH + field in labels then labels[cfg.prefix + DNS_SLASH + field]
    else ""
  }

  // ---- numbers ------------------------------------------------------------------------------

  function Digits(s: string): Option<int> {
    if s == "" then Some(0)
    else
      var init, d := Digits(s[..|s| - 1]), s[|s| - 1];
      if init.None? || !('0' <= d <= '9') then None else Some(10 * init.value + (d as int - '0' as int))
  }

  /** `strconv.Atoi` on 64 bits. */
  function Atoi(s: string): Option<int> {
    var signed := s != "" && (s[0] == '-' || s[0] == '+');
    var digits := if signed then s[1..] else s;
    if digits == "" then None
    else
      var n := Digits(digits);
      if n.None? then None
      else
        var v := if signed && s[0] == '-' then -n.value else n.value;
        if -0x8000_0000_0000_0000 <= v < 0x8000_0000_0000_0000 then Some(v) else None
  }

  // ---- keys of the form <start><name>.<field> -------------------------------------------------

  datatype NameField = NameField(name: string, field: string)

  /** Splits off the part after the last dot. */
  function SplitKey(start: string, key: string): Option<NameField> {
    if !HasPrefix(key, start) then None
    else
      var rest := key[|start|..];
      var dot := LastIndexByte(rest, '.');
      if dot < 0 then None else Some(NameField(rest[..dot], rest[dot + 1..]))
  }

  function JoinKey(start: string, name: string, field: string): string {
    start + name + "." + field
  }

  lemma {:induction false} LastDot(n: string, f: string)
    requires '.' !in f
    ensures LastIndexByte(n + "." + f, '.') == |n|
  {
    var s := n + "." + f;
    if f != "" {
      var init := f[..|f| - 1];
      assert s[..|s| - 1] == n + "." + init;
      assert s[|s| - 1] == f[|f| - 1] && f[|f| - 1] in f;
      LastDot(n, init);
    }
  }

  lemma SplitOfJoin(start: string, name: string, field: string)
    requires '.' !in field
    ensures SplitKey(start, JoinKey(start, name, field)) == Some(NameField(name, field))
  {
    var key, rest := JoinKey(start, name, field), name + "." + field;
    assert key == start + rest && key[..|start|] == start && key[|start|..] == rest;
    LastDot(name, field);
    assert rest[..|name|] == name && rest[|name| + 1..] == field;
  }

  lemma JoinOfSplit(start: string, key: string, name: string, field: string)
    requires SplitKey(start, key) == Some(NameField(name, field))
    ensures key == JoinKey(start, name, field)
  {
    var rest := key[|start|..];
    var dot := LastIndexByte(rest, '.');
    assert rest == rest[..dot] + [rest[dot]] + rest[dot + 1..] && key == start + rest;
  }

  /** Joining and splitting are inverse: different names or fields never share a key. */
  lemma SplitKeyExact(start: string, key: string, name: string, field: string)
    requires '.' !in field
    ensures SplitKey(start, key) == Some(NameField(name, field)) <==> key == JoinKey(start, name, field)
  {
    SplitOfJoin(start, name, field);
    if SplitKey(start, key) == Some(NameField(name, field)) { JoinOfSplit(start, key, name, field); }
  }

  // ---- entrypoint anchors ------------------------------------------------------------------------

  datatype Anchor = Anchor(target: string, priority: int)

  const NO_ANCHOR: Anchor := Anchor("", 0)

  function AnchorAt(m: map<string, Anchor>, ep: string): Anchor {
    if ep in m then m[ep] else NO_ANCHOR
  }

  function OldStart(cfg: Config): string {
    cfg.prefix + DNS_SLASH + ENTRYPOINT
  }

  function NewStart(cfg: Config): string {
    cfg.prefix + DNS_DOT + ENTRYPOINT
  }

  /** The label's value, "" when it is missing. */
  function Value(labels: Labels, key: string): string {
    if key in labels then labels[key] else ""
  }

  /** `set`. */
  function SetField(a: Anchor, field: string, v: string): Anchor {
    if field == "target" then a.(target := v)
    else
      var p := Atoi(TrimSpace(v));
      if p.Some? then a.(priority := p.value) else a
  }

  /** What one container's labels make of the anchor of `ep`. */
  function Overlaid(a: Anchor, start: string, labels: Labels, ep: string): Anchor {
    var t, p := Value(labels, JoinKey(start, ep, "target")), Value(labels, JoinKey(start, ep, "priority"));
    var b := if t == "" then a else SetField(a, "target", t);
    if p == "" then b else SetField(b, "priority", p)
  }

  function OverlaidAll(a: Anchor, start: string, summaries: seq<Labels>, ep: string): Anchor {
    if summaries == [] then a
    else Overlaid(OverlaidAll(a, start, summaries[..|summaries| - 1], ep), start, summaries[|summaries| - 1], ep)
  }

  /** The anchor of an entrypoint: slash labels of all containers first, dotted labels over them. */
  function AnchorOf(cfg: Config, summaries: seq<Labels>, ep: string): Anchor {
    OverlaidAll(OverlaidAll(NO_ANCHOR, OldStart(cfg), summaries, ep), NewStart(cfg), summaries, ep)
  }

  /** The last container's nonempty value for a label. */
  function LastValue(summaries: seq<Labels>, key: string): string {
    if summaries == [] then ""
    else
      var v := Value(summaries[|summaries| - 1], key);
      if v != "" then v else LastValue(summaries[..|summaries| - 1], key)
  }

  lemma {:induction false} OverlaidTarget(a: Anchor, start: string, summaries: seq<Labels>, ep: string)
    ensures OverlaidAll(a, start, summaries, ep).target ==
      if LastValue(summaries, JoinKey(start, ep, "target")) != ""
        then LastValue(summaries, JoinKey(start, ep, "target")) else a.target
  {
    if summaries != [] {
      OverlaidTarget(a, start, summaries[..|summaries| - 1], ep);
    }
  }

  /** An anchor's target is the last nonempty dotted label, and the last nonempty slash label only if there is
      no dotted one. */
  lemma DottedTargetWins(cfg: Config, summaries: seq<Labels>, ep: string)
    ensures var d := LastValue(summaries, JoinKey(NewStart(cfg), ep, "target"));
      var s := LastValue(summaries, JoinKey(OldStart(cfg), ep, "target"));
      AnchorOf(cfg, summaries, ep).target == if d != "" then d else s
  {
    OverlaidTarget(NO_ANCHOR, OldStart(cfg), summaries, ep);
    OverlaidTarget(OverlaidAll(NO_ANCHOR, OldStart(cfg), summaries, ep), NewStart(cfg), summaries, ep);
  }

  /** The last container's value for a label that is a number. */
  function LastNumber(summaries: seq<Labels>, key: string): Option<int> {
    if summaries == [] then None
    else
      var p := Atoi(TrimSpace(Value(summaries[|summaries| - 1], key)));
      if p.Some? then p else LastNumber(summaries[..|summaries| - 1], key)
  }

  lemma OverlaidPriorityOnce(a: Anchor, start: string, labels: Labels, ep: string)
    ensures var p := Atoi(TrimSpace(Value(labels, JoinKey(start, ep, "priority"))));
      Overlaid(a, start, labels, ep).priority == if p.Some? then p.value else a.priority
  {
    assert Atoi(TrimSpace("")) == None;
  }

  lemma {:induction false} OverlaidPriority(a: Anchor, start: string, summaries: seq<Labels>, ep: string)
    ensures var p := LastNumber(summaries, JoinKey(start, ep, "priority"));
      OverlaidAll(a, start, summaries, ep).priority == if p.Some? then p.value else a.priority
  {
    if summaries != [] {
      var init := summaries[..|summaries| - 1];
      OverlaidPriority(a, start, init, ep);
      OverlaidPriorityOnce(OverlaidAll(a, start, init, ep), start, summaries[|summaries| - 1], ep);
    }
  }

  /** An anchor's priority is the last dotted label that is a number, else the last such slash label, else zero. */
  lemma DottedPriorityWins(cfg: Config, summaries: seq<Labels>, ep: string)
    ensures var d := LastNumber(summaries, JoinKey(NewStart(cfg), ep, "priority"));
      var s := LastNumber(summaries, JoinKey(OldStart(cfg), ep, "priority"));
      AnchorOf(cfg, summaries, ep).priority == if d.Some? then d.value else if s.Some? then s.value else 0
  {
    OverlaidPriority(NO_ANCHOR, OldStart(cfg), summaries, ep);
    OverlaidPriority(OverlaidAll(NO_ANCHOR, OldStart(cfg), summaries, ep), NewStart(cfg), summaries, ep);
  }

  function Seen(labels: Labels, todo: set<string>): Labels {
    map k | k in labels && k !in todo :: labels[k]
  }

  predicate AnchorField(f: string) {
    f == "target" || f == "priority"
  }

  /** What visiting one label does to the anchors. */
  function Visited(m: map<string, Anchor>, start: string, k: string, v: string): map<string, Anchor> {
    var nf := SplitKey(start, k);
    if v == "" || nf.None? || nf.value.name == "" || !AnchorField(nf.value.field) then m
    else m[nf.value.name := SetField(AnchorAt(m, nf.value.name), nf.value.field, v)]
  }

  lemma SetCommutes(a: Anchor, t: string, p: string)
    ensures SetField(SetField(a, "target", t), "priority", p) == SetField(SetField(a, "priority", p), "target", t)
  {
  }

  lemma ValueSeen(labels: Labels, todo: set<string>, k: string, key: string)
    requires k in todo && k in labels
    ensures Value(Seen(labels, todo - {k}), key) == if key == k then labels[k] else Value(Seen(labels, todo), key)
    ensures Value(Seen(labels, todo), k) == ""
  {
  }

  lemma FieldsApart(start: string, ep: string)
    ensures JoinKey(start, ep, "target") != JoinKey(start, ep, "priority")
  {
    SplitKeyExact(start, JoinKey(start, ep, "target"), ep, "target");
    SplitKeyExact(start, JoinKey(start, ep, "target"), ep, "priority");
  }

  lemma VisitTarget(m0: map<string, Anchor>, m: map<string, Anchor>, start: string, labels: Labels, todo: set<string>,
                    ep: string)
    requires JoinKey(start, ep, "target") in todo && JoinKey(start, ep, "target") in labels && ep != ""
    requires AnchorAt(m, ep) == Overlaid(AnchorAt(m0, ep), start, Seen(labels, todo), ep)
    ensures var k := JoinKey(start, ep, "target");
      AnchorAt(Visited(m, start, k, labels[k]), ep) == Overlaid(AnchorAt(m0, ep), start, Seen(labels, todo - {k}), ep)
  {
    var a, t, p := AnchorAt(m0, ep), JoinKey(start, ep, "target"), JoinKey(start, ep, "priority");
    SplitKeyExact(start, t, ep, "target");
    ValueSeen(labels, todo, t, t);
    ValueSeen(labels, todo, t, p);
    FieldsApart(start, ep);
    SetCommutes(a, labels[t], Value(Seen(labels, todo), p));
  }

  lemma VisitPriority(m0: map<string, Anchor>, m: map<string, Anchor>, start: string, labels: Labels, todo: set<string>,
                      ep: string)
    requires JoinKey(start, ep, "priority") in todo && JoinKey(start, ep, "priority") in labels && ep != ""
    requires AnchorAt(m, ep) == Overlaid(AnchorAt(m0, ep), start, Seen(labels, todo), ep)
    ensures var k := JoinKey(start, ep, "priority");
      AnchorAt(Visited(m, start, k, labels[k]), ep) == Overlaid(AnchorAt(m0, ep), start, Seen(labels, todo - {k}), ep)
  {
    var t, p := JoinKey(start, ep, "target"), JoinKey(start, ep, "priority");
    SplitKeyExact(start, p, ep, "priority");
    ValueSeen(labels, todo, p, t);
    ValueSeen(labels, todo, p, p);
    FieldsApart(start, ep);
  }

  lemma VisitElsewhere(m0: map<string, Anchor>, m: map<string, Anchor>, start: string, labels: Labels,
                       todo: set<string>, k: string, ep: string)
    requires k in todo && k in labels && k != JoinKey(start, ep, "target") && k != JoinKey(start, ep, "priority")
    requires AnchorAt(m, ep) == Overlaid(AnchorAt(m0, ep), start, Seen(labels, todo), ep)
    ensures AnchorAt(Visited(m, start, k, labels[k]), ep) ==
      Overlaid(AnchorAt(m0, ep), start, Seen(labels, todo - {k}), ep)
  {
    SplitKeyExact(start, k, ep, "target");
    SplitKeyExact(start, k, ep, "priority");
    ValueSeen(labels, todo, k, JoinKey(start, ep, "target"));
    ValueSeen(labels, todo, k, JoinKey(start, ep, "priority"));
  }

  lemma VisitLabel(m0: map<string, Anchor>, m: map<string, Anchor>, start: string, labels: Labels, todo: set<string>,
                   k: string, ep: string)
    requires k in todo && k in labels && ep != ""
    requires AnchorAt(m, ep) == Overlaid(AnchorAt(m0, ep), start, Seen(labels, todo), ep)
    ensures AnchorAt(Visited(m, start, k, labels[k]), ep) ==
      Overlaid(AnchorAt(m0, ep), start, Seen(labels, todo - {k}), ep)
  {
    if k == JoinKey(start, ep, "target") {
      VisitTarget(m0, m, start, labels, todo, ep);
    } else if k == JoinKey(start, ep, "priority") {
      VisitPriority(m0, m, start, labels, todo, ep);
    } else {
      VisitElsewhere(m0, m, start, labels, todo, k, ep);
    }
  }

  /** `m` is the anchors `m0` with one container's labels laid over them. */
  ghost predicate LaidOver(m0: map<string, Anchor>, m: map<string, Anchor>, start: string, labels: Labels) {
    forall ep :: ep != "" ==> AnchorAt(m, ep) == Overlaid(AnchorAt(m0, ep), start, labels, ep)
  }

  lemma NothingSeen(m: map<string, Anchor>, start: string, labels: Labels)
    ensures LaidOver(m, m, start, Seen(labels, labels.Keys))
  {
    assert Seen(labels, labels.Keys) == map[];
  }

  /** The inner loop of `parse`: ranges over the labels of one container in any order. */
  method ParseContainer(m0: map<string, Anchor>, start: string, labels: Labels) returns (m: map<string, Anchor>)
    ensures LaidOver(m0, m, start, labels) && ("" in m ==> "" in m0)
  {
    m := m0;
    var todo := labels.Keys;
    NothingSeen(m0, start, labels);
    while todo != {}
      invariant todo <= labels.Keys
      invariant LaidOver(m0, m, start, Seen(labels, todo)) && ("" in m ==> "" in m0)
      decreases |todo|
    {
      var k :| k in todo;
      forall ep | ep != ""
        ensures AnchorAt(Visited(m, start, k, labels[k]), ep) ==
          Overlaid(AnchorAt(m0, ep), start, Seen(labels, todo - {k}), ep)
      {
        VisitLabel(m0, m, start, labels, todo, k, ep);
      }
      m := Visited(m, start, k, labels[k]);
      todo := todo - {k};
    }
    assert Seen(labels, todo) == labels;
  }

  /** `parse`. */
  method ParseAnchors(m0: map<string, Anchor>, start: string, summaries: seq<Labels>) returns (m: map<string, Anchor>)
    ensures forall ep :: ep != "" ==> AnchorAt(m, ep) == OverlaidAll(AnchorAt(m0, ep), start, summaries, ep)
    ensures "" in m ==> "" in m0
  {
    m := m0;
    for i := 0 to |summaries|
      invariant "" in m ==> "" in m0
      invariant forall ep :: ep != "" ==> AnchorAt(m, ep) == OverlaidAll(AnchorAt(m0, ep), start, summaries[..i], ep)
    {
      assert summaries[..i + 1][..i] == summaries[..i];
      m := ParseContainer(m, start, summaries[i]);
    }
    assert summaries[..|summaries|] == summaries;
  }

  /** `entrypointAnchors`. */
  method EntrypointAnchors(cfg: Config, summaries: seq<Labels>) returns (m: map<string, Anchor>)
    ensures "" !in m && forall ep :: ep != "" ==> AnchorAt(m, ep) == AnchorOf(cfg, summaries, ep)
  {
    m := ParseAnchors(map[], OldStart(cfg), summaries);
    m := ParseAnchors(m, NewStart(cfg), summaries);
  }

  // ---- routers --------------------------------------------------------------------------------------

  datatype Router = Router(rule: string, entrypoints: seq<string>)

  function RuleKey(name: string): string {
    JoinKey(ROUTERS, name, "rule")
  }

  function EntrypointsKey(name: string): string {
    JoinKey(ROUTERS, name, "entrypoints")
  }

  function EntrypointsIn(labels: Labels, name: string): (r: seq<string>)
    ensures "" !in r
  {
    if EntrypointsKey(name) in labels then Kept(SplitByte(labels[EntrypointsKey(name)], ',')) else []
  }

  /** The router a container's labels define under a name. */
  function RouterIn(labels: Labels, name: string): Option<Router> {
    if RuleKey(name) in labels || EntrypointsIn(labels, name) != []
    then Some(Router(Value(labels, RuleKey(name)), EntrypointsIn(labels, name))) else None
  }

  ghost predicate RoutersOf(labels: Labels, rs: map<string, Router>) {
    forall name :: RouterIn(labels, name) == if name in rs then Some(rs[name]) else None
  }

  function RouterAt(rs: map<string, Router>, name: string): Router {
    if name in rs then rs[name] else Router("", [])
  }

  lemma RouterKeys(name: string, k: string)
    ensures SplitKey(ROUTERS, k) == Some(NameField(name, "rule")) <==> k == RuleKey(name)
    ensures SplitKey(ROUTERS, k) == Some(NameField(name, "entrypoints")) <==> k == EntrypointsKey(name)
    ensures RuleKey(name) != EntrypointsKey(name)
  {
    SplitKeyExact(ROUTERS, k, name, "rule");
    SplitKeyExact(ROUTERS, k, name, "entrypoints");
    SplitKeyExact(ROUTERS, RuleKey(name), name, "rule");
    SplitKeyExact(ROUTERS, RuleKey(name), name, "entrypoints");
  }

  /** What visiting one label does to the routers. */
  function VisitedRouter(rs: map<string, Router>, k: string, v: string): map<string, Router> {
    var nf := SplitKey(ROUTERS, k);
    if nf.None? then rs
    else if nf.value.field == "rule" then rs[nf.value.name := RouterAt(rs, nf.value.name).(rule := v)]
    else if nf.value.field == "entrypoints" && Kept(SplitByte(v, ',')) != []
    then
      var r := RouterAt(rs, nf.value.name);
      rs[nf.value.name := r.(entrypoints := r.entrypoints + Kept(SplitByte(v, ',')))]
    else rs
  }

  lemma EntrypointsSeen(labels: Labels, todo: set<string>, k: string, name: string)
    requires k in todo && k in labels
    ensures EntrypointsIn(Seen(labels, todo - {k}), name) ==
      if k == EntrypointsKey(name) then Kept(SplitByte(labels[k], ',')) else EntrypointsIn(Seen(labels, todo), name)
    ensures k == EntrypointsKey(name) ==> EntrypointsIn(Seen(labels, todo), name) == []
  {
  }

  /** Visiting a label of another router, or no router label, changes nothing for `name`. */
  lemma OtherRouter(labels: Labels, todo: set<string>, k: string, rs: map<string, Router>, name: string)
    requires k in todo && k in labels && k != RuleKey(name) && k != EntrypointsKey(name)
    ensures RouterIn(Seen(labels, todo - {k}), name) == RouterIn(Seen(labels, todo), name)
    ensures var rs' := VisitedRouter(rs, k, labels[k]);
      (name in rs' <==> name in rs) && (name in rs ==> rs'[name] == rs[name])
  {
    RouterKeys(name, k);
    ValueSeen(labels, todo, k, RuleKey(name));
    EntrypointsSeen(labels, todo, k, name);
  }

  lemma RuleVisited(labels: Labels, todo: set<string>, rs: map<string, Router>, name: string)
    requires RuleKey(name) in todo && RuleKey(name) in labels
    requires RouterIn(Seen(labels, todo), name) == if name in rs then Some(rs[name]) else None
    ensures var rs' := VisitedRouter(rs, RuleKey(name), labels[RuleKey(name)]);
      name in rs' && RouterIn(Seen(labels, todo - {RuleKey(name)}), name) == Some(rs'[name])
  {
    var k := RuleKey(name);
    RouterKeys(name, k);
    ValueSeen(labels, todo, k, k);
    EntrypointsSeen(labels, todo, k, name);
  }

  lemma EntrypointsVisited(labels: Labels, todo: set<string>, rs: map<string, Router>, name: string)
    requires EntrypointsKey(name) in todo && EntrypointsKey(name) in labels
    requires RouterIn(Seen(labels, todo), name) == if name in rs then Some(rs[name]) else None
    ensures var rs' := VisitedRouter(rs, EntrypointsKey(name), labels[EntrypointsKey(name)]);
      RouterIn(Seen(labels, todo - {EntrypointsKey(name)}), name) == if name in rs' then Some(rs'[name]) else None
  {
    var k := EntrypointsKey(name);
    var was, now, eps := Seen(labels, todo), Seen(labels, todo - {k}), Kept(SplitByte(labels[k], ','));
    RouterKeys(name, k);
    ValueSeen(labels, todo, k, RuleKey(name));
    EntrypointsSeen(labels, todo, k, name);
    assert RuleKey(name) in now <==> RuleKey(name) in was;
    assert EntrypointsIn(now, name) == eps && RouterAt(rs, name).entrypoints == [] && [] + eps == eps;
    assert RouterAt(rs, name).rule == Value(was, RuleKey(name));
  }

  lemma VisitRouterLabel(labels: Labels, todo: set<string>, k: string, rs: map<string, Router>, name: string)
    requires k in todo && k in labels && RoutersOf(Seen(labels, todo), rs)
    ensures var rs' := VisitedRouter(rs, k, labels[k]);
      RouterIn(Seen(labels, todo - {k}), name) == if name in rs' then Some(rs'[name]) else None
  {
    assert RouterIn(Seen(labels, todo), name) == if name in rs then Some(rs[name]) else None;
    if k == RuleKey(name) {
      RuleVisited(labels, todo, rs, name);
    } else if k == EntrypointsKey(name) {
      EntrypointsVisited(labels, todo, rs, name);
    } else {
      OtherRouter(labels, todo, k, rs, name);
    }
  }

  /** `parseRouters`: ranges over the labels in any order. */
  method ParseRouters(labels: Labels) returns (rs: map<string, Router>)
    ensures RoutersOf(labels, rs)
  {
    rs := map[];
    var todo := labels.Keys;
    assert Seen(labels, todo) == map[];
    while todo != {}
      invariant todo <= labels.Keys
      invariant RoutersOf(Seen(labels, todo), rs)
      decreases |todo|
    {
      var k :| k in todo;
      ghost var rs' := VisitedRouter(rs, k, labels[k]);
      forall name ensures RouterIn(Seen(labels, todo - {k}), name) == if name in rs' then Some(rs'[name]) else None {
        VisitRouterLabel(labels, todo, k, rs, name);
      }
      rs := VisitedRouter(rs, k, labels[k]);
      todo := todo - {k};
    }
    assert Seen(labels, todo) == labels;
  }

  // ---- candidates -----------------------------------------------------------------------------------------

  datatype Candidate = Candidate(target: string, priority: int, override: bool)

  predicate Excluded(cfg: Config, labels: Labels) {
    EqualFold(Field(cfg, labels, "exclude"), "true")
  }

  predicate RouterExcluded(cfg: Config, labels: Labels, name: string) {
    EqualFold(Field(cfg, labels, "traefik.router." + name + ".exclude"), "true")
  }

  predicate Publishes(cfg: Config, ep: string) {
    cfg.entrypoints == [] || ep in cfg.entrypoints
  }

  /** The candidate of one entrypoint of a router. */
  function CandidateFor(override: string, anchor: Anchor): Option<Candidate> {
    if override != "" then Some(Candidate(override, 0, true))
    else if anchor.target == "" then None
    else Some(Candidate(anchor.target, anchor.priority, false))
  }

  /** What the containers offer `h`: a container and one of its routers, neither opted out, that
      matches `h` and has a published entrypoint with an override or an anchor. */
  ghost predicate OffersVia(cfg: Config, summaries: seq<Labels>, labels: Labels, name: string, ep: string, h: string,
                            c: Candidate)
  {
    && RouterIn(labels, name).Some? && !RouterExcluded(cfg, labels, name)
    && h in HostsOf(RouterIn(labels, name).value.rule)
    && ep in RouterIn(labels, name).value.entrypoints && Publishes(cfg, ep)
    && CandidateFor(TrimSpace(Field(cfg, labels, "target")), AnchorOf(cfg, summaries, ep)) == Some(c)
  }

  ghost predicate ContainerOffers(cfg: Config, summaries: seq<Labels>, labels: Labels, h: string, c: Candidate) {
    !Excluded(cfg, labels) && exists name, ep :: OffersVia(cfg, summaries, labels, name, ep, h, c)
  }

  ghost predicate Offered(cfg: Config, summaries: seq<Labels>, h: string, c: Candidate) {
    exists i :: 0 <= i < |summaries| && ContainerOffers(cfg, summaries, summaries[i], h, c)
  }

  type Candidates = map<string, seq<Candidate>>

  function CandidatesAt(cands: Candidates, h: string): seq<Candidate> {
    if h in cands then cands[h] else []
  }

  ghost predicate NoneEmpty(cands: Candidates) {
    forall h :: h in cands ==> cands[h] != []
  }

  /** The innermost loop: one candidate for every host of a rule. */
  method AddHosts(cands0: Candidates, hosts: seq<string>, c: Candidate) returns (cands: Candidates)
    requires NoneEmpty(cands0)
    ensures NoneEmpty(cands)
    ensures forall h, d :: d in CandidatesAt(cands, h) <==> d in CandidatesAt(cands0, h) || (h in hosts && d == c)
  {
    cands := cands0;
    for i := 0 to |hosts|
      invariant NoneEmpty(cands)
      invariant forall h, d ::
        d in CandidatesAt(cands, h) <==> d in CandidatesAt(cands0, h) || (h in hosts[..i] && d == c)
    {
      assert hosts[..i + 1] == hosts[..i] + [hosts[i]];
      cands := cands[hosts[i] := CandidatesAt(cands, hosts[i]) + [c]];
    }
    assert hosts[..|hosts|] == hosts;
  }

  /** What the first entrypoints of a router offer. */
  ghost predicate Via(cfg: Config, anchors: map<string, Anchor>, override: string, hosts: seq<string>, eps: seq<string>,
                      h: string, c: Candidate)
  {
    && h in hosts
    && exists ep :: ep in eps && Publishes(cfg, ep) && CandidateFor(override, AnchorAt(anchors, ep)) == Some(c)
  }

  lemma ViaNext(cfg: Config, anchors: map<string, Anchor>, override: string, hosts: seq<string>, eps: seq<string>,
                ep: string, h: string, c: Candidate)
    ensures Via(cfg, anchors, override, hosts, eps + [ep], h, c) <==>
      Via(cfg, anchors, override, hosts, eps, h, c)
        || (h in hosts && Publishes(cfg, ep) && CandidateFor(override, AnchorAt(anchors, ep)) == Some(c))
  {
    assert ep in eps + [ep];
    assert forall e :: e in eps ==> e in eps + [ep];
  }

  ghost predicate AddsVia(cands0: Candidates, cands: Candidates, cfg: Config, anchors: map<string, Anchor>,
                          override: string, hosts: seq<string>, eps: seq<string>)
  {
    forall h, d ::
      d in CandidatesAt(cands, h) <==> d in CandidatesAt(cands0, h) || Via(cfg, anchors, override, hosts, eps, h, d)
  }

  /** The loop over the entrypoints of one router. */
  method AddRouter(cfg: Config, anchors: map<string, Anchor>, override: string, router: Router, hosts: seq<string>,
                   cands0: Candidates)
    returns (cands: Candidates)
    requires NoneEmpty(cands0)
    ensures NoneEmpty(cands) && AddsVia(cands0, cands, cfg, anchors, override, hosts, router.entrypoints)
  {
    cands := cands0;
    var eps := router.entrypoints;
    for i := 0 to |eps|
      invariant NoneEmpty(cands) && AddsVia(cands0, cands, cfg, anchors, override, hosts, eps[..i])
    {
      assert eps[..i + 1] == eps[..i] + [eps[i]];
      forall h, d ensures Via(cfg, anchors, override, hosts, eps[..i + 1], h, d) <==>
        Via(cfg, anchors, override, hosts, eps[..i], h, d)
          || (h in hosts && Publishes(cfg, eps[i]) && CandidateFor(override, AnchorAt(anchors, eps[i])) == Some(d))
      {
        ViaNext(cfg, anchors, override, hosts, eps[..i], eps[i], h, d);
      }
      if Publishes(cfg, eps[i]) {
        var c := CandidateFor(override, AnchorAt(anchors, eps[i]));
        if c.Some? {
          cands := AddHosts(cands, hosts, c.value);
        }
      }
    }
    assert eps[..|eps|] == eps;
  }

  ghost predicate AnchorsRight(cfg: Config, summaries: seq<Labels>, anchors: map<string, Anchor>) {
    forall ep :: ep != "" ==> AnchorAt(anchors, ep) == AnchorOf(cfg, summaries, ep)
  }

  ghost predicate RouterOffers(cfg: Config, summaries: seq<Labels>, labels: Labels, name: string, h: string,
                               c: Candidate)
  {
    exists ep :: OffersVia(cfg, summaries, labels, name, ep, h, c)
  }

  lemma ViaIsOffer(cfg: Config, summaries: seq<Labels>, anchors: map<string, Anchor>, labels: Labels, name: string,
                   h: string, c: Candidate)
    requires AnchorsRight(cfg, summaries, anchors) && RouterIn(labels, name).Some? && !RouterExcluded(cfg, labels, name)
    ensures var r := RouterIn(labels, name).value;
      Via(cfg, anchors, TrimSpace(Field(cfg, labels, "target")), HostsOf(r.rule), r.entrypoints, h, c) <==>
        RouterOffers(cfg, summaries, labels, name, h, c)
  {
    var r, o := RouterIn(labels, name).value, TrimSpace(Field(cfg, labels, "target"));
    forall ep | ep in r.entrypoints
      ensures CandidateFor(o, AnchorAt(anchors, ep)) == CandidateFor(o, AnchorOf(cfg, summaries, ep))
    {
      assert ep != "";
    }
    if ep :|
      ep in r.entrypoints && Publishes(cfg, ep) && CandidateFor(o, AnchorAt(anchors, ep)) == Some(c)
      && h in HostsOf(r.rule)
    {
      assert OffersVia(cfg, summaries, labels, name, ep, h, c);
    }
    if RouterOffers(cfg, summaries, labels, name, h, c) {
      var ep :| OffersVia(cfg, summaries, labels, name, ep, h, c);
      assert ep in r.entrypoints;
    }
  }

  /** The routers of a container that have been visited offer `c`. */
  ghost predicate DoneOffers(cfg: Config, summaries: seq<Labels>, labels: Labels, todo: set<string>, h: string,
                             c: Candidate)
  {
    exists name :: name !in todo && RouterOffers(cfg, summaries, labels, name, h, c)
  }

  ghost predicate AddsDone(cands0: Candidates, cands: Candidates, cfg: Config, summaries: seq<Labels>, labels: Labels,
                           todo: set<string>)
  {
    forall h, d ::
      d in CandidatesAt(cands, h) <==> d in CandidatesAt(cands0, h) || DoneOffers(cfg, summaries, labels, todo, h, d)
  }

  lemma RouterDone(cands0: Candidates, cands: Candidates, cands': Candidates, cfg: Config, summaries: seq<Labels>,
                   labels: Labels, todo: set<string>, name: string)
    requires name in todo && AddsDone(cands0, cands, cfg, summaries, labels, todo)
    requires forall h, d ::
      d in CandidatesAt(cands', h) <==> d in CandidatesAt(cands, h) || RouterOffers(cfg, summaries, labels, name, h, d)
    ensures AddsDone(cands0, cands', cfg, summaries, labels, todo - {name})
  {
    forall h, d
      ensures d in CandidatesAt(cands', h) <==>
        d in CandidatesAt(cands0, h) || DoneOffers(cfg, summaries, labels, todo - {name}, h, d)
    {
      if DoneOffers(cfg, summaries, labels, todo - {name}, h, d) {
        var n :| n !in todo - {name} && RouterOffers(cfg, summaries, labels, n, h, d);
        assert n == name || DoneOffers(cfg, summaries, labels, todo, h, d);
      }
      if DoneOffers(cfg, summaries, labels, todo, h, d) {
        var n :| n !in todo && RouterOffers(cfg, summaries, labels, n, h, d);
        assert n !in todo - {name};
      }
    }
  }

  /** The body of the router loop. */
  method VisitRouter(cfg: Config, ghost summaries: seq<Labels>, anchors: map<string, Anchor>, labels: Labels,
                     name: string, router: Router, cands: Candidates)
    returns (cands': Candidates)
    requires NoneEmpty(cands) && AnchorsRight(cfg, summaries, anchors) && RouterIn(labels, name) == Some(router)
    ensures NoneEmpty(cands')
    ensures forall h, d ::
      d in CandidatesAt(cands', h) <==> d in CandidatesAt(cands, h) || RouterOffers(cfg, summaries, labels, name, h, d)
  {
    cands' := cands;
    if RouterExcluded(cfg, labels, name) {
      return;
    }
    forall h, d
      ensures Via(cfg, anchors, TrimSpace(Field(cfg, labels, "target")), HostsOf(router.rule), router.entrypoints, h, d)
      <==> RouterOffers(cfg, summaries, labels, name, h, d)
    {
      ViaIsOffer(cfg, summaries, anchors, labels, name, h, d);
    }
    var hosts := ParseHosts(router.rule);
    if |hosts| == 0 {
      return;
    }
    cands' := AddRouter(cfg, anchors, TrimSpace(Field(cfg, labels, "target")), router, hosts, cands);
  }

  lemma AllDone(cfg: Config, summaries: seq<Labels>, labels: Labels, h: string, c: Candidate)
    ensures DoneOffers(cfg, summaries, labels, {}, h, c) <==>
      exists name, ep :: OffersVia(cfg, summaries, labels, name, ep, h, c)
  {
    if DoneOffers(cfg, summaries, labels, {}, h, c) {
      var name :| name !in {} && RouterOffers(cfg, summaries, labels, name, h, c);
      var ep :| OffersVia(cfg, summaries, labels, name, ep, h, c);
    }
    if name, ep :| OffersVia(cfg, summaries, labels, name, ep, h, c) {
      assert RouterOffers(cfg, summaries, labels, name, h, c);
    }
  }

  lemma NoneDone(cands: Candidates, cfg: Config, summaries: seq<Labels>, labels: Labels, rs: map<string, Router>)
    requires RoutersOf(labels, rs)
    ensures AddsDone(cands, cands, cfg, summaries, labels, rs.Keys)
  {
    forall name, h, d | name !in rs ensures !RouterOffers(cfg, summaries, labels, name, h, d) {
      assert RouterIn(labels, name) == None;
    }
  }

  /** The body of the container loop: ranges over the routers in any order. */
  method AddContainer(cfg: Config, ghost summaries: seq<Labels>, anchors: map<string, Anchor>, labels: Labels,
                      cands0: Candidates)
    returns (cands: Candidates)
    requires NoneEmpty(cands0) && AnchorsRight(cfg, summaries, anchors)
    ensures NoneEmpty(cands)
    ensures forall h, d ::
      d in CandidatesAt(cands, h) <==> d in CandidatesAt(cands0, h) || ContainerOffers(cfg, summaries, labels, h, d)
  {
    cands := cands0;
    if Excluded(cfg, labels) {
      return;
    }
    var rs := ParseRouters(labels);
    NoneDone(cands0, cfg, summaries, labels, rs);
    var todo := rs.Keys;
    while todo != {}
      invariant todo <= rs.Keys && NoneEmpty(cands)
      invariant AddsDone(cands0, cands, cfg, summaries, labels, todo)
      decreases |todo|
    {
      var name :| name in todo;
      ghost var before := cands;
      assert RouterIn(labels, name) == Some(rs[name]);
      cands := VisitRouter(cfg, summaries, anchors, labels, name, rs[name], cands);
      RouterDone(cands0, before, cands, cfg, summaries, labels, todo, name);
      todo := todo - {name};
    }
    forall h, d
      ensures DoneOffers(cfg, summaries, labels, {}, h, d) <==> ContainerOffers(cfg, summaries, labels, h, d)
    {
      AllDone(cfg, summaries, labels, h, d);
    }
  }

  ghost predicate OfferedByFirst(cfg: Config, summaries: seq<Labels>, n: nat, h: string, c: Candidate)
    requires n <= |summaries|
  {
    exists i :: 0 <= i < n && ContainerOffers(cfg, summaries, summaries[i], h, c)
  }

  ghost predicate Gathered(cfg: Config, summaries: seq<Labels>, n: nat, cands: Candidates)
    requires n <= |summaries|
  {
    NoneEmpty(cands) && forall h, d :: d in CandidatesAt(cands, h) <==> OfferedByFirst(cfg, summaries, n, h, d)
  }

  lemma OneMoreContainer(cfg: Config, summaries: seq<Labels>, n: nat, h: string, c: Candidate)
    requires n < |summaries|
    ensures OfferedByFirst(cfg, summaries, n + 1, h, c) <==>
      OfferedByFirst(cfg, summaries, n, h, c) || ContainerOffers(cfg, summaries, summaries[n], h, c)
  {
  }

  lemma GatherMore(cfg: Config, summaries: seq<Labels>, n: nat, cands: Candidates, cands': Candidates)
    requires n < |summaries| && Gathered(cfg, summaries, n, cands) && NoneEmpty(cands')
    requires forall h, d :: d in CandidatesAt(cands', h) <==>
      d in CandidatesAt(cands, h) || ContainerOffers(cfg, summaries, summaries[n], h, d)
    ensures Gathered(cfg, summaries, n + 1, cands')
  {
    forall h, d ensures d in CandidatesAt(cands', h) <==> OfferedByFirst(cfg, summaries, n + 1, h, d) {
      OneMoreContainer(cfg, summaries, n, h, d);
    }
  }

  /** The first half of `Endpoints`: the candidates of every host. */
  method GatherCandidates(cfg: Config, summaries: seq<Labels>) returns (cands: Candidates)
    ensures Gathered(cfg, summaries, |summaries|, cands)
  {
    var anchors := EntrypointAnchors(cfg, summaries);
    cands := map[];
    for i := 0 to |summaries|
      invariant Gathered(cfg, summaries, i, cands)
    {
      ghost var before := cands;
      cands := AddContainer(cfg, summaries, anchors, summaries[i], cands);
      GatherMore(cfg, summaries, i, before, cands);
    }
  }

  // ---- one winner per host ---------------------------------------------------------------------------------------

  /** The winning tier: the overrides if there are any, else the anchors of highest priority. */
  ghost predicate InTier(s: iset<Candidate>, c: Candidate) {
    c in s && if exists o :: o in s && o.override then c.override else forall d :: d in s ==> d.priority <= c.priority
  }

  ghost predicate Wins(s: iset<Candidate>, target: string) {
    && (exists c :: InTier(s, c))
    && forall c :: InTier(s, c) ==> c.target == target
  }

  /** Two members of the winning tier disagree. */
  ghost predicate Conflict(s: iset<Candidate>) {
    exists c, d :: InTier(s, c) && InTier(s, d) && c.target != d.target
  }

  ghost function Members(cs: seq<Candidate>): iset<Candidate> {
    iset c | c in cs
  }

  /** The first loop of `resolveCandidates`. */
  method Overrides(cs: seq<Candidate>) returns (pool: seq<Candidate>)
    ensures forall c :: c in pool <==> c in cs && c.override
  {
    pool := [];
    for i := 0 to |cs|
      invariant forall c :: c in pool <==> c in cs[..i] && c.override
    {
      assert cs[..i + 1] == cs[..i] + [cs[i]];
      if cs[i].override {
        pool := pool + [cs[i]];
      }
    }
    assert cs[..|cs|] == cs;
  }

  /** The other two loops that fill the pool. */
  method TopPriority(cs: seq<Candidate>) returns (pool: seq<Candidate>)
    ensures forall c :: c in pool <==> c in cs && forall d :: d in cs ==> d.priority <= c.priority
  {
    var maxP, have := 0, false;
    for i := 0 to |cs|
      invariant have <==> i > 0
      invariant have ==> exists c :: c in cs[..i] && c.priority == maxP
      invariant have ==> forall d :: d in cs[..i] ==> d.priority <= maxP
    {
      assert cs[..i + 1] == cs[..i] + [cs[i]];
      assert cs[i] in cs[..i + 1];
      if !have || cs[i].priority > maxP {
        maxP, have := cs[i].priority, true;
      }
    }
    assert cs[..|cs|] == cs;
    pool := [];
    for i := 0 to |cs|
      invariant forall c :: c in pool <==> c in cs[..i] && c.priority == maxP
    {
      assert cs[..i + 1] == cs[..i] + [cs[i]];
      if cs[i].priority == maxP {
        pool := pool + [cs[i]];
      }
    }
  }

  /** The last loop: one target, or a conflict. */
  method OnlyTarget(pool: seq<Candidate>) returns (target: string, conflict: bool)
    requires pool != [] && forall c :: c in pool ==> c.target != ""
    ensures conflict <==> exists c, d :: c in pool && d in pool && c.target != d.target
    ensures !conflict ==> forall c :: c in pool ==> c.target == target
  {
    target := "";
    for i := 0 to |pool|
      invariant i == 0 ==> target == ""
      invariant i > 0 ==> target == pool[0].target
      invariant forall j :: 0 <= j < i ==> pool[j].target == target
    {
      assert pool[0] in pool && pool[i] in pool;
      if target == "" {
        target := pool[i].target;
      } else if pool[i].target != target {
        return "", true;
      }
    }
    return target, false;
  }

  /** `resolveCandidates`. */
  method ResolveCandidates(cs: seq<Candidate>) returns (target: string, conflict: bool)
    requires cs != [] && forall c :: c in cs ==> c.target != ""
    ensures conflict <==> Conflict(Members(cs))
    ensures !conflict ==> Wins(Members(cs), target)
  {
    var pool := Overrides(cs);
    if |pool| == 0 {
      pool := TopPriority(cs);
      TopExists(cs, |cs|);
    } else {
      assert pool[0] in pool;
    }
    TierIsPool(cs, pool);
    target, conflict := OnlyTarget(pool);
    if !conflict { assert pool[0] in pool; }
  }

  lemma TierIsPool(cs: seq<Candidate>, pool: seq<Candidate>)
    requires if exists o :: o in cs && o.override then forall c :: c in pool <==> c in cs && c.override
      else forall c :: c in pool <==> c in cs && forall d :: d in cs ==> d.priority <= c.priority
    ensures forall c :: c in pool <==> InTier(Members(cs), c)
  {
    assert forall c :: c in cs <==> c in Members(cs);
    if o :| o in cs && o.override {
      assert o in Members(cs) && o.override;
    }
    forall c ensures c in pool <==> InTier(Members(cs), c) {}
  }

  lemma {:induction false} TopExists(cs: seq<Candidate>, n: nat)
    requires 0 < n <= |cs|
    ensures exists c :: c in cs[..n] && forall d :: d in cs[..n] ==> d.priority <= c.priority
  {
    if n == 1 {
      assert cs[0] in cs[..1];
      assert forall d :: d in cs[..1] ==> d == cs[0];
    } else {
      TopExists(cs, n - 1);
      var c :| c in cs[..n - 1] && forall d :: d in cs[..n - 1] ==> d.priority <= c.priority;
      assert cs[..n] == cs[..n - 1] + [cs[n - 1]];
      var top := if cs[n - 1].priority > c.priority then cs[n - 1] else c;
      assert top in cs[..n];
      assert forall d :: d in cs[..n] ==> d.priority <= top.priority;
    }
  }

  // ---- the endpoint list ----------------------------------------------------------------------------------------

  ghost function OffersTo(cfg: Config, summaries: seq<Labels>, h: string): iset<Candidate> {
    iset c | Offered(cfg, summaries, h, c)
  }

  ghost predicate StrictlySorted(names: seq<string>) {
    forall i, j :: 0 <= i < j < |names| ==> LessEq(names[i], names[j]) && names[i] != names[j]
  }

  function Names(es: seq<Endpoint>): (r: seq<string>)
    ensures |r| == |es| && forall i :: 0 <= i < |es| ==> r[i] == es[i].name
  {
    seq(|es|, i requires 0 <= i < |es| => es[i].name)
  }

  /** The endpoint of a host that resolves. */
  ghost predicate Winner(cfg: Config, parseIP: string -> IPKind, summaries: seq<Labels>, e: Endpoint) {
    exists t :: Wins(OffersTo(cfg, summaries, e.name), t) && e == NewInferred(e.name, [t], 0, parseIP)
  }

  /** What `Endpoints` promises: `out` lists the endpoints of all hosts whose winning tier agrees on a
      target, `conflicts` the hosts whose winning tier does not, both strictly sorted by host. */
  ghost predicate Published(cfg: Config, parseIP: string -> IPKind, summaries: seq<Labels>, out: seq<Endpoint>,
                            conflicts: seq<string>)
  {
    && StrictlySorted(Names(out)) && StrictlySorted(conflicts)
    && (forall e :: e in out <==> Winner(cfg, parseIP, summaries, e))
    && (forall h :: h in conflicts <==> Conflict(OffersTo(cfg, summaries, h)))
  }

  /** The same, for some hosts only. */
  ghost predicate PublishedAmong(cfg: Config, parseIP: string -> IPKind, summaries: seq<Labels>, hosts: seq<string>,
                                 out: seq<Endpoint>, conflicts: seq<string>)
  {
    && StrictlySorted(Names(out)) && StrictlySorted(conflicts)
    && WinnersAmong(cfg, parseIP, summaries, hosts, out) && ConflictsAmong(cfg, summaries, hosts, conflicts)
  }

  ghost predicate WinnersAmong(cfg: Config, parseIP: string -> IPKind, summaries: seq<Labels>, hosts: seq<string>,
                               out: seq<Endpoint>)
  {
    ListsThose(Winners(cfg, parseIP, summaries), hosts, out)
  }

  ghost function Winners(cfg: Config, parseIP: string -> IPKind, summaries: seq<Labels>): iset<Endpoint> {
    iset e | Winner(cfg, parseIP, summaries, e)
  }

  ghost predicate ListsThose(w: iset<Endpoint>, hosts: seq<string>, out: seq<Endpoint>) {
    forall e :: e in out <==> e.name in hosts && e in w
  }

  lemma ListsSame(w: iset<Endpoint>, hosts: seq<string>, h: string, out: seq<Endpoint>)
    requires ListsThose(w, hosts, out) && forall e :: e in w ==> e.name != h
    ensures ListsThose(w, hosts + [h], out)
  {
  }

  lemma ListsMore(w: iset<Endpoint>, hosts: seq<string>, out: seq<Endpoint>, e: Endpoint)
    requires ListsThose(w, hosts, out) && e in w && forall f :: f in w && f.name == e.name ==> f == e
    ensures ListsThose(w, hosts + [e.name], out + [e])
  {
  }

  ghost predicate ConflictsAmong(cfg: Config, summaries: seq<Labels>, hosts: seq<string>, conflicts: seq<string>) {
    ListsNames(Conflicting(cfg, summaries), hosts, conflicts)
  }

  ghost function Conflicting(cfg: Config, summaries: seq<Labels>): iset<string> {
    iset h | Conflict(OffersTo(cfg, summaries, h))
  }

  ghost predicate ListsNames(w: iset<string>, hosts: seq<string>, names: seq<string>) {
    forall h :: h in names <==> h in hosts && h in w
  }

  lemma NamesStep(w: iset<string>, hosts: seq<string>, h: string, names: seq<string>)
    requires ListsNames(w, hosts, names)
    ensures ListsNames(w, hosts + [h], if h in w then names + [h] else names)
  {
  }

  lemma WinsOnce(s: iset<Candidate>, t: string, u: string)
    requires Wins(s, t)
    ensures !Conflict(s) && (Wins(s, u) ==> t == u)
  {
    var c :| InTier(s, c);
  }

  lemma OnlyOffered(cfg: Config, parseIP: string -> IPKind, summaries: seq<Labels>, cands: Candidates)
    requires Gathered(cfg, summaries, |summaries|, cands)
    ensures forall h :: h in cands ==> Members(cands[h]) == OffersTo(cfg, summaries, h)
    ensures forall h :: Conflict(OffersTo(cfg, summaries, h)) ==> h in cands
    ensures forall e :: Winner(cfg, parseIP, summaries, e) ==> e.name in cands
  {
    forall h, c ensures c in CandidatesAt(cands, h) <==> Offered(cfg, summaries, h, c) {}
    forall h | h in cands ensures Members(cands[h]) == OffersTo(cfg, summaries, h) {
      assert CandidatesAt(cands, h) == cands[h];
    }
    forall h | Conflict(OffersTo(cfg, summaries, h)) ensures h in cands {
      var c, d :| InTier(OffersTo(cfg, summaries, h), c) && InTier(OffersTo(cfg, summaries, h), d)
        && c.target != d.target;
      assert c in CandidatesAt(cands, h);
    }
    forall e | Winner(cfg, parseIP, summaries, e) ensures e.name in cands {
      var t :| Wins(OffersTo(cfg, summaries, e.name), t) && e == NewInferred(e.name, [t], 0, parseIP);
      var c :| InTier(OffersTo(cfg, summaries, e.name), c);
      assert c in CandidatesAt(cands, e.name);
    }
  }

  lemma CandidateGiven(override: string, anchor: Anchor, c: Candidate)
    requires CandidateFor(override, anchor) == Some(c)
    ensures c.target != ""
  {
  }

  /** Offered targets are never empty. */
  lemma TargetsGiven(cfg: Config, summaries: seq<Labels>, h: string, c: Candidate)
    requires Offered(cfg, summaries, h, c)
    ensures c.target != ""
  {
    var i :| 0 <= i < |summaries| && ContainerOffers(cfg, summaries, summaries[i], h, c);
    var name, ep :| OffersVia(cfg, summaries, summaries[i], name, ep, h, c);
    CandidateGiven(TrimSpace(Field(cfg, summaries[i], "target")), AnchorOf(cfg, summaries, ep), c);
  }

  /** Ranges over the candidates map in any order to list its hosts, then sorts them. */
  method SortedHosts(cands: Candidates) returns (hosts: seq<string>)
    ensures StrictlySorted(hosts) && forall h :: h in hosts <==> h in cands
  {
    var listed: seq<string> := [];
    var todo := cands.Keys;
    while todo != {}
      invariant todo <= cands.Keys
      invariant forall h :: h in listed <==> h in cands && h !in todo
      invariant Distinct(listed)
      decreases |todo|
    {
      var h :| h in todo;
      assert forall i :: 0 <= i < |listed| ==> listed[i] in listed;
      listed := listed + [h];
      todo := todo - {h};
    }
    hosts := Sort(listed);
    SortSorts(listed);
    SortKeepsDistinct(listed);
    forall h ensures h in hosts <==> h in listed {
      assert h in multiset(hosts) <==> h in multiset(listed);
    }
  }

  lemma CountOnce(s: seq<string>, i: nat, j: nat)
    requires i < j < |s| && s[i] == s[j]
    ensures multiset(s)[s[i]] >= 2
  {
    assert s == s[..i] + [s[i]] + s[i + 1..j] + [s[j]] + s[j + 1..];
  }

  lemma SortKeepsDistinct(s: seq<string>)
    requires Distinct(s)
    ensures StrictlySorted(Sort(s))
  {
    SortSorts(s);
    var t := Sort(s);
    forall i, j | 0 <= i < j < |t| ensures LessEq(t[i], t[j]) && t[i] != t[j] {
      if t[i] == t[j] {
        CountOnce(t, i, j);
        DistinctCounts(s, t[i]);
      }
    }
  }

  lemma SortedLast(names: seq<string>, h: string, sub: seq<string>)
    requires StrictlySorted(names + [h]) && StrictlySorted(sub) && forall n :: n in sub ==> n in names
    ensures StrictlySorted(sub + [h])
  {
    forall j | 0 <= j < |sub| ensures LessEq(sub[j], h) && sub[j] != h {
      assert sub[j] in sub;
      var p :| 0 <= p < |names| && names[p] == sub[j];
      assert (names + [h])[p] == sub[j] && (names + [h])[|names|] == h;
    }
  }

  lemma NamesMore(es: seq<Endpoint>, e: Endpoint)
    ensures Names(es + [e]) == Names(es) + [e.name]
  {
  }

  lemma NextConflict(cfg: Config, parseIP: string -> IPKind, summaries: seq<Labels>, hosts: seq<string>, h: string,
                     out: seq<Endpoint>, conflicts: seq<string>)
    requires StrictlySorted(hosts + [h]) && PublishedAmong(cfg, parseIP, summaries, hosts, out, conflicts)
    requires Conflict(OffersTo(cfg, summaries, h))
    ensures PublishedAmong(cfg, parseIP, summaries, hosts + [h], out, conflicts + [h])
  {
    assert forall n :: n in conflicts ==> n in hosts;
    SortedLast(hosts, h, conflicts);
    WinnersSame(cfg, parseIP, summaries, hosts, h, out);
    ConflictsMore(cfg, summaries, hosts, h, conflicts);
  }

  lemma WinnersSame(cfg: Config, parseIP: string -> IPKind, summaries: seq<Labels>, hosts: seq<string>, h: string,
                    out: seq<Endpoint>)
    requires WinnersAmong(cfg, parseIP, summaries, hosts, out) && Conflict(OffersTo(cfg, summaries, h))
    ensures WinnersAmong(cfg, parseIP, summaries, hosts + [h], out)
  {
    forall e | e in Winners(cfg, parseIP, summaries) ensures e.name != h {
      ConflictHasNoWinner(cfg, parseIP, summaries, e);
    }
    ListsSame(Winners(cfg, parseIP, summaries), hosts, h, out);
  }

  lemma WinnersMore(cfg: Config, parseIP: string -> IPKind, summaries: seq<Labels>, hosts: seq<string>,
                    out: seq<Endpoint>, e: Endpoint)
    requires WinnersAmong(cfg, parseIP, summaries, hosts, out) && Winner(cfg, parseIP, summaries, e)
    ensures WinnersAmong(cfg, parseIP, summaries, hosts + [e.name], out + [e])
  {
    forall f | f in Winners(cfg, parseIP, summaries) && f.name == e.name ensures f == e {
      OneWinner(cfg, parseIP, summaries, e, f);
    }
    ListsMore(Winners(cfg, parseIP, summaries), hosts, out, e);
  }

  lemma ConflictsMore(cfg: Config, summaries: seq<Labels>, hosts: seq<string>, h: string, conflicts: seq<string>)
    requires ConflictsAmong(cfg, summaries, hosts, conflicts) && Conflict(OffersTo(cfg, summaries, h))
    ensures ConflictsAmong(cfg, summaries, hosts + [h], conflicts + [h])
  {
    NamesStep(Conflicting(cfg, summaries), hosts, h, conflicts);
  }

  lemma ConflictsSame(cfg: Config, summaries: seq<Labels>, hosts: seq<string>, h: string, conflicts: seq<string>)
    requires ConflictsAmong(cfg, summaries, hosts, conflicts) && !Conflict(OffersTo(cfg, summaries, h))
    ensures ConflictsAmong(cfg, summaries, hosts + [h], conflicts)
  {
    NamesStep(Conflicting(cfg, summaries), hosts, h, conflicts);
  }

  lemma ConflictHasNoWinner(cfg: Config, parseIP: string -> IPKind, summaries: seq<Labels>, e: Endpoint)
    requires Winner(cfg, parseIP, summaries, e)
    ensures !Conflict(OffersTo(cfg, summaries, e.name))
  {
    var t :| Wins(OffersTo(cfg, summaries, e.name), t) && e == NewInferred(e.name, [t], 0, parseIP);
    WinsOnce(OffersTo(cfg, summaries, e.name), t, t);
  }

  lemma OneWinner(cfg: Config, parseIP: string -> IPKind, summaries: seq<Labels>, e: Endpoint, f: Endpoint)
    requires Winner(cfg, parseIP, summaries, e) && Winner(cfg, parseIP, summaries, f) && e.name == f.name
    ensures e == f
  {
    var t :| Wins(OffersTo(cfg, summaries, e.name), t) && e == NewInferred(e.name, [t], 0, parseIP);
    var u :| Wins(OffersTo(cfg, summaries, f.name), u) && f == NewInferred(f.name, [u], 0, parseIP);
    WinsOnce(OffersTo(cfg, summaries, e.name), t, u);
  }

  lemma NextWinner(cfg: Config, parseIP: string -> IPKind, summaries: seq<Labels>, hosts: seq<string>,
                   out: seq<Endpoint>, conflicts: seq<string>, e: Endpoint)
    requires StrictlySorted(hosts + [e.name]) && PublishedAmong(cfg, parseIP, summaries, hosts, out, conflicts)
    requires Winner(cfg, parseIP, summaries, e)
    ensures PublishedAmong(cfg, parseIP, summaries, hosts + [e.name], out + [e], conflicts)
  {
    assert forall f :: f in out ==> f.name in hosts;
    SortedNames(hosts, out, e);
    ConflictHasNoWinner(cfg, parseIP, summaries, e);
    WinnersMore(cfg, parseIP, summaries, hosts, out, e);
    ConflictsSame(cfg, summaries, hosts, e.name, conflicts);
  }

  lemma SortedNames(hosts: seq<string>, out: seq<Endpoint>, e: Endpoint)
    requires StrictlySorted(hosts + [e.name]) && StrictlySorted(Names(out)) && forall f :: f in out ==> f.name in hosts
    ensures StrictlySorted(Names(out + [e]))
  {
    forall h | h in Names(out) ensures h in hosts {
      var j :| 0 <= j < |out| && Names(out)[j] == h;
      assert out[j] in out;
    }
    SortedLast(hosts, e.name, Names(out));
    NamesMore(out, e);
  }

  lemma NextHosts(hosts: seq<string>, i: nat)
    requires StrictlySorted(hosts) && i < |hosts|
    ensures hosts[..i + 1] == hosts[..i] + [hosts[i]] && StrictlySorted(hosts[..i] + [hosts[i]])
  {
  }

  /** `Endpoints` of the Traefik source. */
  method PublishHosts(cfg: Config, parseIP: string -> IPKind, summaries: seq<Labels>)
    returns (out: seq<Endpoint>, conflicts: seq<string>)
    ensures Published(cfg, parseIP, summaries, out, conflicts)
  {
    var cands := GatherCandidates(cfg, summaries);
    var hosts := SortedHosts(cands);
    OnlyOffered(cfg, parseIP, summaries, cands);
    out, conflicts := [], [];
    for i := 0 to |hosts|
      invariant PublishedAmong(cfg, parseIP, summaries, hosts[..i], out, conflicts)
    {
      var h := hosts[i];
      NextHosts(hosts, i);
      assert h in hosts;
      forall c: Candidate | c in cands[h] ensures c.target != "" {
        assert c in Members(cands[h]) && c in OffersTo(cfg, summaries, h);
        TargetsGiven(cfg, summaries, h, c);
      }
      var target, conflict := ResolveCandidates(cands[h]);
      if conflict {
        NextConflict(cfg, parseIP, summaries, hosts[..i], h, out, conflicts);
        conflicts := conflicts + [h];
      } else {
        var e := NewInferred(h, [target], 0, parseIP);
        assert Winner(cfg, parseIP, summaries, e);
        NextWinner(cfg, parseIP, summaries, hosts[..i], out, conflicts, e);
        out := out + [e];
      }
    }
    assert hosts[..|hosts|] == hosts;
  }

  // ---- determinism --------------------------------------------------------------------------------------------------

  lemma {:induction false} SameSortedStrings(a: seq<string>, b: seq<string>)
    requires StrictlySorted(a) && StrictlySorted(b) && forall h :: h in a <==> h in b
    ensures a == b
  {
    assert |b| > 0 ==> b[0] in b;
    if a != [] {
      assert a[0] in b && |b| > 0;
      FirstSame(a, b);
      assert a == [a[0]] + a[1..] && b == [b[0]] + b[1..];
      forall h ensures h in a[1..] <==> h in b[1..] {
        TailMembers(a, h);
        TailMembers(b, h);
      }
      SameSortedStrings(a[1..], b[1..]);
    }
  }

  lemma TailMembers(a: seq<string>, h: string)
    requires StrictlySorted(a) && a != []
    ensures h in a[1..] <==> h in a && h != a[0]
  {
    assert forall i :: 0 < i < |a| ==> a[0] != a[i];
  }

  lemma FirstSame(a: seq<string>, b: seq<string>)
    requires StrictlySorted(a) && StrictlySorted(b) && a != [] && b != [] && forall h :: h in a <==> h in b
    ensures a[0] == b[0]
  {
    assert a[0] in b && b[0] in a;
    var i :| 0 <= i < |b| && b[i] == a[0];
    var j :| 0 <= j < |a| && a[j] == b[0];
    if i > 0 && j > 0 {
      LessEqAntisymmetric(a[0], b[0]);
    }
  }

  lemma SameSortedEndpoints(a: seq<Endpoint>, b: seq<Endpoint>)
    requires StrictlySorted(Names(a)) && StrictlySorted(Names(b)) && forall e :: e in a <==> e in b
    ensures a == b
  {
    forall h ensures h in Names(a) <==> h in Names(b) {
      NameMember(a, b, h);
      NameMember(b, a, h);
    }
    SameSortedStrings(Names(a), Names(b));
    forall i | 0 <= i < |a| ensures a[i] == b[i] {
      assert a[i] in b && Names(a)[i] == Names(b)[i];
      var j :| 0 <= j < |b| && b[j] == a[i];
      assert Names(b)[j] == Names(b)[i];
    }
  }

  /** For a fixed container list the endpoints and the reported conflicts are the same whatever
      order labels, routers and candidates are ranged over. */
  lemma Deterministic(cfg: Config, parseIP: string -> IPKind, summaries: seq<Labels>, out: seq<Endpoint>,
                      conflicts: seq<string>, out': seq<Endpoint>, conflicts': seq<string>)
    requires Published(cfg, parseIP, summaries, out, conflicts) && Published(cfg, parseIP, summaries, out', conflicts')
    ensures out == out' && conflicts == conflicts'
  {
    SameSortedStrings(conflicts, conflicts');
    SameSortedEndpoints(out, out');
  }

  lemma NameMember(a: seq<Endpoint>, b: seq<Endpoint>, h: string)
    requires forall e :: e in a ==> e in b
    ensures h in Names(a) ==> h in Names(b)
  {
    if h in Names(a) {
      var i :| 0 <= i < |a| && Names(a)[i] == h;
      assert a[i] in b;
      var j :| 0 <= j < |b| && b[j] == a[i];
      assert Names(b)[j] == h;
    }
  }
}
