/** What the published list means in terms of container labels: an app's own target label beats every entrypoint,
    otherwise the entrypoint with the greatest priority decides, and opted-out containers do not count. */
module TraefikLaws {
  import opened GoText
  import opened Endpoints
  import opened Rules
  import opened Traefik

  // ---- single labels -----------------------------------------------------------------------------

  /** A dotted label, even an empty one, hides the slash label of the same field. */
  lemma DottedHidesSlash(cfg: Config, labels: Labels, field: string)
    ensures cfg.prefix + ".dns." + field in labels ==> Field(cfg, labels, field) == labels[cfg.prefix + ".dns." + field]
    ensures cfg.prefix + ".dns." + field !in labels && cfg.prefix + ".dns/" + field in labels ==>
      Field(cfg, labels, field) == labels[cfg.prefix + ".dns/" + field]
    ensures cfg.prefix + ".dns." + field !in labels && cfg.prefix + ".dns/" + field !in labels ==>
      Field(cfg, labels, field) == ""
  {
    assert DNS_DOT == ".dns." && DNS_SLASH == ".dns/";
  }

  /** "true" in upper or lower case letters. */
  predicate SaysTrue(v: string) {
    && |v| == 4 && (v[0] == 't' || v[0] == 'T') && (v[1] == 'r' || v[1] == 'R')
    && (v[2] == 'u' || v[2] == 'U') && (v[3] == 'e' || v[3] == 'E')
  }

  lemma FoldsToTrue(v: string)
    ensures EqualFold(v, "true") <==> SaysTrue(v)
  {
    assert ToLower("true") == "true";
    if |v| == 4 {
      assert ToLower(v) == [LowerChar(v[0]), LowerChar(v[1]), LowerChar(v[2]), LowerChar(v[3])];
    }
  }

  /** An opted-out container offers nothing. */
  lemma OptedOutOffersNothing(cfg: Config, summaries: seq<Labels>, labels: Labels, h: string, c: Candidate)
    requires SaysTrue(Field(cfg, labels, "exclude"))
    ensures !ContainerOffers(cfg, summaries, labels, h, c)
  {
    FoldsToTrue(Field(cfg, labels, "exclude"));
  }

  // ---- numbers -----------------------------------------------------------------------------------

  /** `n` in decimal digits. */
  function Decimal(n: nat): string {
    (if n < 10 then "" else Decimal(n / 10)) + ["0123456789"[n % 10]]
  }

  function In64Bits(v: int): Option<int> {
    if -0x8000_0000_0000_0000 <= v <= 0x7fff_ffff_ffff_ffff then Some(v) else None
  }

  lemma {:induction false} DigitsOfDecimal(n: nat)
    ensures Digits(Decimal(n)) == Some(n) && Decimal(n) != "" && '0' <= Decimal(n)[0] <= '9'
  {
    var s, d := Decimal(n), "0123456789"[n % 10];
    assert '0' <= d <= '9' && d as int - '0' as int == n % 10;
    if n < 10 {
      assert s == [d] && s[..|s| - 1] == "";
    } else {
      DigitsOfDecimal(n / 10);
      assert s[..|s| - 1] == Decimal(n / 10) && s[|s| - 1] == d;
    }
  }

  /** Priorities are read as decimal numbers of 64 bits, with or without a sign. */
  lemma DecimalIsRead(n: nat)
    ensures Atoi(Decimal(n)) == In64Bits(n)
    ensures Atoi("+" + Decimal(n)) == In64Bits(n)
    ensures Atoi("-" + Decimal(n)) == In64Bits(-(n as int))
  {
    DigitsOfDecimal(n);
    Unsigned(Decimal(n), n);
    Signed('+', Decimal(n), n);
    Signed('-', Decimal(n), n);
    assert "+" == ['+'] && "-" == ['-'];
  }

  lemma Unsigned(s: string, n: nat)
    requires s != "" && '0' <= s[0] <= '9' && Digits(s) == Some(n)
    ensures Atoi(s) == In64Bits(n)
  {
  }

  lemma Signed(sign: char, s: string, n: nat)
    requires s != "" && Digits(s) == Some(n) && (sign == '+' || sign == '-')
    ensures Atoi([sign] + s) == In64Bits(if sign == '-' then -(n as int) else n)
  {
    assert ([sign] + s)[1..] == s && ([sign] + s)[0] == sign;
  }

  lemma {:induction false} OnlyDigits(s: string, i: nat)
    requires i < |s| && !('0' <= s[i] <= '9')
    ensures Digits(s) == None
  {
    if i < |s| - 1 { OnlyDigits(s[..|s| - 1], i); }
  }

  /** Anything else in a label, after a sign, makes it no number. */
  lemma OtherCharacterIsNoNumber(s: string, i: nat)
    requires i < |s| && !('0' <= s[i] <= '9') && (i == 0 ==> s[0] != '+' && s[0] != '-')
    ensures Atoi(s) == None
  {
    if s[0] == '+' || s[0] == '-' {
      OnlyDigits(s[1..], i - 1);
    } else {
      OnlyDigits(s, i);
    }
  }

  // ---- routers -----------------------------------------------------------------------------------

  /** A router whose rule label reads `rule` and whose entrypoints label lists `parts`, separated by commas and
      with any blanks around them, names exactly the entrypoints between the blanks. */
  lemma RouterSpelled(labels: Labels, name: string, rule: string, parts: seq<string>, eps: seq<string>)
    requires "traefik.http.routers." + name + ".rule" in labels
    requires labels["traefik.http.routers." + name + ".rule"] == rule
    requires "traefik.http.routers." + name + ".entrypoints" in labels
    requires parts != [] && (forall p :: p in parts ==> ',' !in p)
    requires labels["traefik.http.routers." + name + ".entrypoints"] == Joined(parts, ',')
    requires |eps| == |parts| && forall i :: 0 <= i < |parts| ==> Padded(parts[i], eps[i])
    ensures RouterIn(labels, name) == Some(Router(rule, WithoutEmpty(eps)))
  {
    assert RuleKey(name) == "traefik.http.routers." + name + ".rule";
    assert EntrypointsKey(name) == "traefik.http.routers." + name + ".entrypoints";
    SplitJoined(parts, ',');
    KeptPadded(parts, eps);
  }

  /** For one: `web,websecure` names two entrypoints. */
  lemma TwoEntrypoints(labels: Labels, rule: string)
    requires "traefik.http.routers.app.rule" in labels && labels["traefik.http.routers.app.rule"] == rule
    requires "traefik.http.routers.app.entrypoints" in labels
    requires labels["traefik.http.routers.app.entrypoints"] == "web,websecure"
    ensures RouterIn(labels, "app") == Some(Router(rule, ["web", "websecure"]))
  {
    assert "traefik.http.routers." + "app" + ".rule" == "traefik.http.routers.app.rule";
    assert "traefik.http.routers." + "app" + ".entrypoints" == "traefik.http.routers.app.entrypoints";
    WebAndWebsecure();
    var eps := ["web", "websecure"];
    PaddedSelf("web");
    PaddedSelf("websecure");
    NoneEmptyToDrop(eps);
    RouterSpelled(labels, "app", rule, eps, eps);
  }

  lemma WebAndWebsecure()
    ensures var eps := ["web", "websecure"]; Joined(eps, ',') == "web,websecure" && forall p :: p in eps ==> ',' !in p
  {
    var eps := ["web", "websecure"];
    assert eps[1..] == ["websecure"] && Joined(["websecure"], ',') == "websecure";
    assert "web" + [','] + "websecure" == "web,websecure";
    forall p | p in eps ensures ',' !in p {
      assert p == "web" || p == "websecure";
    }
  }

  // ---- who offers what ---------------------------------------------------------------------------

  /** A router of the container, neither of them opted out, matches `h` and has the published entrypoint `ep`. */
  ghost predicate RoutesVia(cfg: Config, labels: Labels, name: string, h: string, ep: string) {
    && !SaysTrue(Field(cfg, labels, "exclude"))
    && !SaysTrue(Field(cfg, labels, "traefik.router." + name + ".exclude"))
    && RouterIn(labels, name).Some? && h in HostsOf(RouterIn(labels, name).value.rule)
    && ep in RouterIn(labels, name).value.entrypoints && (cfg.entrypoints == [] || ep in cfg.entrypoints)
  }

  ghost predicate Routes(cfg: Config, labels: Labels, h: string, ep: string) {
    exists name :: RoutesVia(cfg, labels, name, h, ep)
  }

  /** The container's own target label. */
  function OwnTarget(cfg: Config, labels: Labels): string {
    TrimSpace(Field(cfg, labels, "target"))
  }

  /** The container asks for a target of its own for `h`. */
  ghost predicate Overrides(cfg: Config, labels: Labels, h: string) {
    OwnTarget(cfg, labels) != "" && exists ep :: Routes(cfg, labels, h, ep)
  }

  /** Container number `i` asks for the target `t` for `h`. */
  ghost predicate AsksFor(cfg: Config, summaries: seq<Labels>, h: string, i: nat, t: string) {
    i < |summaries| && Overrides(cfg, summaries[i], h) && OwnTarget(cfg, summaries[i]) == t
  }

  function EntryKey(cfg: Config, form: string, ep: string, field: string): string {
    cfg.prefix + form + "traefik.entrypoint." + ep + "." + field
  }

  /** The target of an entrypoint: its last dotted label, or else its last slash label. */
  function EntryTarget(cfg: Config, summaries: seq<Labels>, ep: string): string {
    var d := LastValue(summaries, EntryKey(cfg, ".dns.", ep, "target"));
    if d != "" then d else LastValue(summaries, EntryKey(cfg, ".dns/", ep, "target"))
  }

  /** Its priority, in the same way, by the last label that is a number. */
  function EntryPriority(cfg: Config, summaries: seq<Labels>, ep: string): int {
    var d := LastNumber(summaries, EntryKey(cfg, ".dns.", ep, "priority"));
    var s := LastNumber(summaries, EntryKey(cfg, ".dns/", ep, "priority"));
    if d.Some? then d.value else if s.Some? then s.value else 0
  }

  /** Some container without a target of its own routes `h` over `ep`, which has a target. */
  ghost predicate EntryOffers(cfg: Config, summaries: seq<Labels>, h: string, ep: string) {
    && EntryTarget(cfg, summaries, ep) != ""
    && exists i :: 0 <= i < |summaries| && OwnTarget(cfg, summaries[i]) == "" && Routes(cfg, summaries[i], h, ep)
  }

  /** No entrypoint that offers `h` has a greater priority. */
  ghost predicate Leads(cfg: Config, summaries: seq<Labels>, h: string, ep: string) {
    && EntryOffers(cfg, summaries, h, ep)
    && forall other :: EntryOffers(cfg, summaries, h, other) ==>
         EntryPriority(cfg, summaries, other) <= EntryPriority(cfg, summaries, ep)
  }

  lemma EntryAnchor(cfg: Config, summaries: seq<Labels>, ep: string)
    ensures AnchorOf(cfg, summaries, ep) == Anchor(EntryTarget(cfg, summaries, ep), EntryPriority(cfg, summaries, ep))
  {
    DottedTargetWins(cfg, summaries, ep);
    DottedPriorityWins(cfg, summaries, ep);
    assert NewStart(cfg) == cfg.prefix + ".dns." + "traefik.entrypoint.";
    assert OldStart(cfg) == cfg.prefix + ".dns/" + "traefik.entrypoint.";
  }

  // ---- offers, in these terms -------------------------------------------------------------------------

  lemma ViaSpelled(cfg: Config, summaries: seq<Labels>, labels: Labels, name: string, ep: string, h: string,
                   c: Candidate)
    ensures !Excluded(cfg, labels) && OffersVia(cfg, summaries, labels, name, ep, h, c) <==>
      && RoutesVia(cfg, labels, name, h, ep)
      && CandidateFor(OwnTarget(cfg, labels), AnchorOf(cfg, summaries, ep)) == Some(c)
  {
    FoldsToTrue(Field(cfg, labels, "exclude"));
    FoldsToTrue(Field(cfg, labels, "traefik.router." + name + ".exclude"));
  }

  /** A container with a target of its own offers exactly that, as an override. */
  lemma OwnOffer(cfg: Config, summaries: seq<Labels>, labels: Labels, h: string, c: Candidate)
    requires OwnTarget(cfg, labels) != ""
    ensures ContainerOffers(cfg, summaries, labels, h, c) <==>
      Overrides(cfg, labels, h) && c == Candidate(OwnTarget(cfg, labels), 0, true)
  {
    if ContainerOffers(cfg, summaries, labels, h, c) {
      var name, ep :| OffersVia(cfg, summaries, labels, name, ep, h, c);
      ViaSpelled(cfg, summaries, labels, name, ep, h, c);
      assert Routes(cfg, labels, h, ep);
    }
    if Overrides(cfg, labels, h) && c == Candidate(OwnTarget(cfg, labels), 0, true) {
      var ep :| Routes(cfg, labels, h, ep);
      var name :| RoutesVia(cfg, labels, name, h, ep);
      ViaSpelled(cfg, summaries, labels, name, ep, h, c);
    }
  }

  /** One without offers the targets of the entrypoints it routes `h` over. */
  lemma EntryOffer(cfg: Config, summaries: seq<Labels>, labels: Labels, h: string, c: Candidate)
    requires OwnTarget(cfg, labels) == ""
    ensures ContainerOffers(cfg, summaries, labels, h, c) <==>
      exists ep :: Routes(cfg, labels, h, ep) && OfEntry(cfg, summaries, ep, c)
  {
    if ContainerOffers(cfg, summaries, labels, h, c) {
      var name, ep :| OffersVia(cfg, summaries, labels, name, ep, h, c);
      ViaSpelled(cfg, summaries, labels, name, ep, h, c);
      EntryAnchor(cfg, summaries, ep);
      assert Routes(cfg, labels, h, ep) && OfEntry(cfg, summaries, ep, c);
    }
    if ep :| Routes(cfg, labels, h, ep) && OfEntry(cfg, summaries, ep, c) {
      var name :| RoutesVia(cfg, labels, name, h, ep);
      ViaSpelled(cfg, summaries, labels, name, ep, h, c);
      EntryAnchor(cfg, summaries, ep);
    }
  }

  ghost predicate OfEntry(cfg: Config, summaries: seq<Labels>, ep: string, c: Candidate) {
    && EntryTarget(cfg, summaries, ep) != ""
    && c == Candidate(EntryTarget(cfg, summaries, ep), EntryPriority(cfg, summaries, ep), false)
  }

  /** The candidate of an app that asks for a target of its own. */
  ghost predicate Asked(cfg: Config, summaries: seq<Labels>, h: string, c: Candidate) {
    c == Candidate(c.target, 0, true) && exists i: nat :: AsksFor(cfg, summaries, h, i, c.target)
  }

  /** The candidate of an entrypoint. */
  ghost predicate Entered(cfg: Config, summaries: seq<Labels>, h: string, c: Candidate) {
    exists ep :: EntryOffers(cfg, summaries, h, ep) && OfEntry(cfg, summaries, ep, c)
  }

  /** All that is offered for a host. */
  lemma OfferSpelled(cfg: Config, summaries: seq<Labels>, h: string, c: Candidate)
    ensures Offered(cfg, summaries, h, c) <==> Asked(cfg, summaries, h, c) || Entered(cfg, summaries, h, c)
    ensures Asked(cfg, summaries, h, c) ==> c.override
    ensures Entered(cfg, summaries, h, c) ==> !c.override
  {
    if Offered(cfg, summaries, h, c) {
      var i :| 0 <= i < |summaries| && ContainerOffers(cfg, summaries, summaries[i], h, c);
      if OwnTarget(cfg, summaries[i]) != "" {
        OwnOffer(cfg, summaries, summaries[i], h, c);
        assert AsksFor(cfg, summaries, h, i, c.target);
      } else {
        EntryOffer(cfg, summaries, summaries[i], h, c);
        var ep :| Routes(cfg, summaries[i], h, ep) && OfEntry(cfg, summaries, ep, c);
        assert EntryOffers(cfg, summaries, h, ep);
      }
    }
    if Asked(cfg, summaries, h, c) {
      var i: nat :| AsksFor(cfg, summaries, h, i, c.target);
      OwnOffer(cfg, summaries, summaries[i], h, c);
    }
    if ep :| EntryOffers(cfg, summaries, h, ep) && OfEntry(cfg, summaries, ep, c) {
      var i :| 0 <= i < |summaries| && OwnTarget(cfg, summaries[i]) == "" && Routes(cfg, summaries[i], h, ep);
      EntryOffer(cfg, summaries, summaries[i], h, c);
    }
  }

  // ---- the published list -----------------------------------------------------------------------------

  /** `h` is published with the target `t`, with the type `t` calls for, and is no conflict. */
  ghost predicate PublishedWith(parseIP: string -> IPKind, out: seq<Endpoint>, conflicts: seq<string>, h: string,
                                t: string)
  {
    && h !in conflicts
    && exists e :: e in out && e.name == h && e.targets == [t] && TypeFits(parseIP, e, t)
  }

  predicate TypeFits(parseIP: string -> IPKind, e: Endpoint, t: string) {
    && e.ttl == 0 && e.labels == map[]
    && (e.rtype == A <==> parseIP(t) == IPv4) && (e.rtype == AAAA <==> parseIP(t) == IPv6)
    && (e.rtype == CNAME <==> parseIP(t) == NotIP)
  }

  /** `h` is reported and not published. */
  ghost predicate Reported(out: seq<Endpoint>, conflicts: seq<string>, h: string) {
    h in conflicts && forall e :: e in out ==> e.name != h
  }

  lemma TierPublishes(cfg: Config, parseIP: string -> IPKind, summaries: seq<Labels>, out: seq<Endpoint>,
                      conflicts: seq<string>, h: string, t: string)
    requires Published(cfg, parseIP, summaries, out, conflicts) && Wins(OffersTo(cfg, summaries, h), t)
    ensures PublishedWith(parseIP, out, conflicts, h, t)
  {
    WinsOnce(OffersTo(cfg, summaries, h), t, t);
    var e := NewInferred(h, [t], 0, parseIP);
    assert Winner(cfg, parseIP, summaries, e) && TypeFits(parseIP, e, t);
  }

  lemma TierConflicts(cfg: Config, parseIP: string -> IPKind, summaries: seq<Labels>, out: seq<Endpoint>,
                      conflicts: seq<string>, h: string)
    requires Published(cfg, parseIP, summaries, out, conflicts) && Conflict(OffersTo(cfg, summaries, h))
    ensures Reported(out, conflicts, h)
  {
    forall e | e in out ensures e.name != h {
      ConflictHasNoWinner(cfg, parseIP, summaries, e);
    }
  }

  /** With an override, the winning tier is the overrides. */
  lemma OverrideTier(cfg: Config, summaries: seq<Labels>, h: string, i: nat, t: string, c: Candidate)
    requires AsksFor(cfg, summaries, h, i, t)
    ensures InTier(OffersTo(cfg, summaries, h), c) <==> Asked(cfg, summaries, h, c)
  {
    var o := Candidate(t, 0, true);
    assert Asked(cfg, summaries, h, o);
    OfferSpelled(cfg, summaries, h, o);
    OfferSpelled(cfg, summaries, h, c);
    OverridesFirst(OffersTo(cfg, summaries, h), o, c);
  }

  lemma OverridesFirst(s: iset<Candidate>, o: Candidate, c: Candidate)
    requires o in s && o.override
    ensures InTier(s, c) <==> c in s && c.override
  {
  }

  /** An app that asks for a target of its own gets it, whatever the priorities of the entrypoints: the host is
      published with that target when all such apps agree, and is a conflict otherwise. */
  lemma OwnTargetWins(cfg: Config, parseIP: string -> IPKind, summaries: seq<Labels>, out: seq<Endpoint>,
                      conflicts: seq<string>, h: string, i: nat, t: string)
    requires Published(cfg, parseIP, summaries, out, conflicts) && AsksFor(cfg, summaries, h, i, t)
    ensures (forall j: nat, u :: AsksFor(cfg, summaries, h, j, u) ==> u == t) ==>
      PublishedWith(parseIP, out, conflicts, h, t)
    ensures (exists j: nat, u :: AsksFor(cfg, summaries, h, j, u) && u != t) ==> Reported(out, conflicts, h)
  {
    var s := OffersTo(cfg, summaries, h);
    assert Asked(cfg, summaries, h, Candidate(t, 0, true));
    OverrideTier(cfg, summaries, h, i, t, Candidate(t, 0, true));
    if j: nat, u :| AsksFor(cfg, summaries, h, j, u) && u != t {
      assert Asked(cfg, summaries, h, Candidate(u, 0, true));
      OverrideTier(cfg, summaries, h, i, t, Candidate(u, 0, true));
      assert InTier(s, Candidate(t, 0, true)) && InTier(s, Candidate(u, 0, true));
      TierConflicts(cfg, parseIP, summaries, out, conflicts, h);
    } else {
      forall c | InTier(s, c) ensures c.target == t {
        OverrideTier(cfg, summaries, h, i, t, c);
      }
      TierPublishes(cfg, parseIP, summaries, out, conflicts, h, t);
    }
  }

  // ---- without an override --------------------------------------------------------------------------------

  ghost predicate NobodyAsks(cfg: Config, summaries: seq<Labels>, h: string) {
    forall i: nat, t :: !AsksFor(cfg, summaries, h, i, t)
  }

  lemma EntryTier(cfg: Config, summaries: seq<Labels>, h: string, c: Candidate)
    requires NobodyAsks(cfg, summaries, h)
    ensures InTier(OffersTo(cfg, summaries, h), c) <==>
      exists ep :: Leads(cfg, summaries, h, ep) && OfEntry(cfg, summaries, ep, c)
  {
    var s := OffersTo(cfg, summaries, h);
    forall d ensures d in s <==> Entered(cfg, summaries, h, d) {
      OfferSpelled(cfg, summaries, h, d);
    }
    forall d | d in s ensures !d.override {
      OfferSpelled(cfg, summaries, h, d);
    }
    GreatestFirst(s, c);
    if InTier(s, c) {
      var ep :| EntryOffers(cfg, summaries, h, ep) && OfEntry(cfg, summaries, ep, c);
      TopLeads(cfg, summaries, h, s, c, ep);
    }
    if ep :| Leads(cfg, summaries, h, ep) && OfEntry(cfg, summaries, ep, c) {
      LeaderTops(cfg, summaries, h, s, c, ep);
    }
  }

  lemma GreatestFirst(s: iset<Candidate>, c: Candidate)
    requires forall d :: d in s ==> !d.override
    ensures InTier(s, c) <==> c in s && forall d :: d in s ==> d.priority <= c.priority
  {
  }

  lemma TopLeads(cfg: Config, summaries: seq<Labels>, h: string, s: iset<Candidate>, c: Candidate, ep: string)
    requires (forall d :: d in s <==> Entered(cfg, summaries, h, d)) && forall d :: d in s ==> d.priority <= c.priority
    requires EntryOffers(cfg, summaries, h, ep) && OfEntry(cfg, summaries, ep, c)
    ensures Leads(cfg, summaries, h, ep)
  {
    forall other | EntryOffers(cfg, summaries, h, other)
      ensures EntryPriority(cfg, summaries, other) <= EntryPriority(cfg, summaries, ep)
    {
      var d := Candidate(EntryTarget(cfg, summaries, other), EntryPriority(cfg, summaries, other), false);
      assert OfEntry(cfg, summaries, other, d) && d in s;
    }
  }

  lemma LeaderTops(cfg: Config, summaries: seq<Labels>, h: string, s: iset<Candidate>, c: Candidate, ep: string)
    requires forall d :: d in s <==> Entered(cfg, summaries, h, d)
    requires Leads(cfg, summaries, h, ep) && OfEntry(cfg, summaries, ep, c)
    ensures c in s && forall d :: d in s ==> d.priority <= c.priority
  {
    assert Entered(cfg, summaries, h, c);
    forall d | d in s ensures d.priority <= c.priority {
      var other :| EntryOffers(cfg, summaries, h, other) && OfEntry(cfg, summaries, other, d);
    }
  }

  /** Otherwise the entrypoint with the greatest priority decides; two leading ones that disagree are a conflict. */
  lemma GreatestPriorityWins(cfg: Config, parseIP: string -> IPKind, summaries: seq<Labels>, out: seq<Endpoint>,
                             conflicts: seq<string>, h: string, ep: string)
    requires Published(cfg, parseIP, summaries, out, conflicts) && NobodyAsks(cfg, summaries, h)
    requires Leads(cfg, summaries, h, ep)
    ensures var t := EntryTarget(cfg, summaries, ep);
      && ((forall other :: Leads(cfg, summaries, h, other) ==> EntryTarget(cfg, summaries, other) == t) ==>
            PublishedWith(parseIP, out, conflicts, h, t))
      && ((exists other :: Leads(cfg, summaries, h, other) && EntryTarget(cfg, summaries, other) != t) ==>
            Reported(out, conflicts, h))
  {
    var s, t := OffersTo(cfg, summaries, h), EntryTarget(cfg, summaries, ep);
    var top := Candidate(t, EntryPriority(cfg, summaries, ep), false);
    EntryTier(cfg, summaries, h, top);
    assert OfEntry(cfg, summaries, ep, top);
    if other :| Leads(cfg, summaries, h, other) && EntryTarget(cfg, summaries, other) != t {
      var c := Candidate(EntryTarget(cfg, summaries, other), EntryPriority(cfg, summaries, other), false);
      EntryTier(cfg, summaries, h, c);
      assert OfEntry(cfg, summaries, other, c);
      assert InTier(s, top) && InTier(s, c);
      TierConflicts(cfg, parseIP, summaries, out, conflicts, h);
    } else {
      forall c | InTier(s, c) ensures c.target == t {
        EntryTier(cfg, summaries, h, c);
      }
      TierPublishes(cfg, parseIP, summaries, out, conflicts, h, t);
    }
  }

  /** A host nobody offers is neither published nor reported. So a container that has opted out, alone, has no say. */
  lemma NothingOffered(cfg: Config, parseIP: string -> IPKind, summaries: seq<Labels>, out: seq<Endpoint>,
                       conflicts: seq<string>, h: string)
    requires Published(cfg, parseIP, summaries, out, conflicts) && NobodyAsks(cfg, summaries, h)
    requires forall ep :: !EntryOffers(cfg, summaries, h, ep)
    ensures h !in conflicts && forall e :: e in out ==> e.name != h
  {
    forall c ensures c !in OffersTo(cfg, summaries, h) {
      OfferSpelled(cfg, summaries, h, c);
    }
  }

  // ---- some entrypoint leads ----------------------------------------------------------------------------------

  /** The entrypoints named by any label: finitely many. */
  function NamedEntrypoints(summaries: seq<Labels>): set<string> {
    set i, k, ep | 0 <= i < |summaries| && k in summaries[i] && ep in Kept(SplitByte(summaries[i][k], ',')) :: ep
  }

  lemma OfferedIsNamed(cfg: Config, summaries: seq<Labels>, h: string, ep: string)
    requires EntryOffers(cfg, summaries, h, ep)
    ensures ep in NamedEntrypoints(summaries)
  {
    var i :| 0 <= i < |summaries| && OwnTarget(cfg, summaries[i]) == "" && Routes(cfg, summaries[i], h, ep);
    var name :| RoutesVia(cfg, summaries[i], name, h, ep);
    assert EntrypointsKey(name) in summaries[i];
  }

  function Greater(cfg: Config, summaries: seq<Labels>, a: string, b: string): (c: string)
    ensures c == a || c == b
    ensures EntryPriority(cfg, summaries, a) <= EntryPriority(cfg, summaries, c)
    ensures EntryPriority(cfg, summaries, b) <= EntryPriority(cfg, summaries, c)
  {
    if EntryPriority(cfg, summaries, a) > EntryPriority(cfg, summaries, b) then a else b
  }

  lemma {:induction false} LeaderAmong(cfg: Config, summaries: seq<Labels>, h: string, eps: set<string>, first: string)
    returns (top: string)
    requires EntryOffers(cfg, summaries, h, first)
    ensures EntryOffers(cfg, summaries, h, top)
    ensures forall ep :: ep in eps && EntryOffers(cfg, summaries, h, ep) ==>
      EntryPriority(cfg, summaries, ep) <= EntryPriority(cfg, summaries, top)
    decreases |eps|
  {
    if eps == {} {
      top := first;
    } else {
      var ep :| ep in eps;
      var best := LeaderAmong(cfg, summaries, h, eps - {ep}, first);
      top := if EntryOffers(cfg, summaries, h, ep) then Greater(cfg, summaries, ep, best) else best;
      forall other | other in eps && EntryOffers(cfg, summaries, h, other)
        ensures EntryPriority(cfg, summaries, other) <= EntryPriority(cfg, summaries, top)
      {
        assert other == ep || other in eps - {ep};
      }
    }
  }

  lemma SomeLeader(cfg: Config, summaries: seq<Labels>, h: string, ep: string) returns (top: string)
    requires EntryOffers(cfg, summaries, h, ep)
    ensures Leads(cfg, summaries, h, top)
  {
    top := LeaderAmong(cfg, summaries, h, NamedEntrypoints(summaries), ep);
    forall other | EntryOffers(cfg, summaries, h, other)
      ensures EntryPriority(cfg, summaries, other) <= EntryPriority(cfg, summaries, top)
    {
      OfferedIsNamed(cfg, summaries, h, other);
    }
  }

  /** Every host that is offered at all is published or reported, never both. */
  lemma OfferedIsResolved(cfg: Config, parseIP: string -> IPKind, summaries: seq<Labels>, out: seq<Endpoint>,
                          conflicts: seq<string>, h: string)
    requires Published(cfg, parseIP, summaries, out, conflicts)
    requires !NobodyAsks(cfg, summaries, h) || exists ep :: EntryOffers(cfg, summaries, h, ep)
    ensures (exists t :: PublishedWith(parseIP, out, conflicts, h, t)) != Reported(out, conflicts, h)
  {
    if !NobodyAsks(cfg, summaries, h) {
      var i: nat, t :| AsksFor(cfg, summaries, h, i, t);
      OwnTargetWins(cfg, parseIP, summaries, out, conflicts, h, i, t);
    } else {
      var ep :| EntryOffers(cfg, summaries, h, ep);
      var top := SomeLeader(cfg, summaries, h, ep);
      GreatestPriorityWins(cfg, parseIP, summaries, out, conflicts, h, top);
    }
  }
}
