/** Host names in Traefik router rules: what `parseHosts` finds, and that it finds
    exactly what a rule was written to say (internal/source/traefik.go). */
module Rules {
  import opened GoText

  // ---- the two regular expressions -----------------------------------------------------

  predicate Letter(c: char, lower: char) {
    LowerChar(c) == lower
  }

  predicate HostWord(s: string) {
    |s| >= 4 && Letter(s[0], 'h') && Letter(s[1], 'o') && Letter(s[2], 's') && Letter(s[3], 't')
  }

  predicate SniWord(s: string) {
    |s| >= 7 && Letter(s[4], 's') && Letter(s[5], 'n') && Letter(s[6], 'i')
  }

  /** Where the parenthesis of a matcher starting here has to be. */
  function Opening(s: string): nat {
    if SniWord(s) then 7 else 4
  }

  predicate StartsHost(s: string) {
    HostWord(s) && Opening(s) < |s| && s[Opening(s)] == '('
  }

  datatype Match = Match(args: string, rest: string)

  /** A match of `(?i)Host(?:SNI)?\(([^)]*)\)` at the beginning of `s`. */
  function MatchHere(s: string): (m: Option<Match>)
    ensures m.Some? ==> |m.value.rest| < |s| && StartsHost(s)
  {
    if !StartsHost(s) then None
    else
      var u := s[Opening(s) + 1..];
      var e := IndexByte(u, ')');
      if e < 0 then None else Some(Match(u[..e], u[e + 1..]))
  }

  /** The arguments of all matches, leftmost first, none overlapping. */
  function HostArgs(s: string): seq<string>
    decreases |s|
  {
    if s == "" then []
    else
      var m := MatchHere(s);
      if m.Some? then [m.value.args] + HostArgs(m.value.rest) else HostArgs(s[1..])
  }

  /** All texts between two backticks. */
  function Quotes(s: string): seq<string>
    decreases |s|
  {
    var i := IndexByte(s, '`');
    if i < 0 then []
    else
      var t := s[i + 1..];
      var j := IndexByte(t, '`');
      if j < 0 then [] else [t[..j]] + Quotes(t[j + 1..])
  }

  // ---- parsing ------------------------------------------------------------------------------

  /** The nonempty trimmed ones of several texts. */
  function Kept(qs: seq<string>): (r: seq<string>)
    ensures "" !in r
  {
    if qs == [] then [] else
      var h := TrimSpace(qs[|qs| - 1]);
      Kept(qs[..|qs| - 1]) + if h == "" then [] else [h]
  }

  function FromArgs(args: seq<string>): seq<string> {
    if args == [] then [] else FromArgs(args[..|args| - 1]) + Kept(Quotes(args[|args| - 1]))
  }

  function HostsOf(rule: string): seq<string> {
    FromArgs(HostArgs(rule))
  }

  /** The inner loop of `parseHosts`. */
  method KeepHosts(qs: seq<string>) returns (hosts: seq<string>)
    ensures hosts == Kept(qs)
  {
    hosts := [];
    for j := 0 to |qs|
      invariant hosts == Kept(qs[..j])
    {
      assert qs[..j + 1][..j] == qs[..j];
      var h := TrimSpace(qs[j]);
      if h != "" {
        hosts := hosts + [h];
      }
    }
    assert qs[..|qs|] == qs;
  }

  /** `parseHosts`. */
  method ParseHosts(rule: string) returns (hosts: seq<string>)
    ensures hosts == HostsOf(rule)
  {
    hosts := [];
    var matches := HostArgs(rule);
    for i := 0 to |matches|
      invariant hosts == FromArgs(matches[..i])
    {
      assert matches[..i + 1][..i] == matches[..i];
      var more := KeepHosts(Quotes(matches[i]));
      hosts := hosts + more;
    }
    assert matches[..|matches|] == matches;
  }

  // ---- writing rules --------------------------------------------------------------------------

  datatype Clause = Hosts(keyword: string, hosts: seq<string>) | Other(text: string)

  /** Clauses joined by `&&` or `||`. */
  datatype Rule = One(clause: Clause) | Join(clause: Clause, and: bool, rest: Rule)

  predicate Keyword(k: string) {
    HostWord(k) && (|k| == 4 || (|k| == 7 && SniWord(k)))
  }

  predicate GoodHost(h: string) {
    h != "" && TrimSpace(h) == h && '`' !in h && ')' !in h
  }

  /** No `Host(` and no `HostSNI(` anywhere, in any case. */
  predicate NoHost(text: string) {
    forall i :: 0 <= i < |text| ==> !StartsHost(text[i..])
  }

  predicate GoodClause(c: Clause) {
    match c
    case Hosts(keyword, hosts) => Keyword(keyword) && forall h :: h in hosts ==> GoodHost(h)
    case Other(text) => NoHost(text)
  }

  predicate GoodRule(r: Rule) {
    GoodClause(r.clause) && (r.Join? ==> GoodRule(r.rest))
  }

  function Args(hosts: seq<string>): string
    decreases |hosts|, 1
  {
    if hosts == [] then "" else "`" + hosts[0] + "`" + More(hosts)
  }

  function More(hosts: seq<string>): string
    requires hosts != []
    decreases |hosts|, 0
  {
    if |hosts| == 1 then "" else ", " + Args(hosts[1..])
  }

  function ClauseText(c: Clause): string {
    match c
    case Hosts(keyword, hosts) => keyword + "(" + Args(hosts) + ")"
    case Other(text) => text
  }

  function Separator(and: bool): string {
    if and then " && " else " || "
  }

  function RuleText(r: Rule): string {
    match r
    case One(c) => ClauseText(c)
    case Join(c, and, rest) => ClauseText(c) + (Separator(and) + RuleText(rest))
  }

  function Named(c: Clause): seq<string> {
    if c.Hosts? then c.hosts else []
  }

  function HostsNamed(r: Rule): seq<string> {
    Named(r.clause) + if r.Join? then HostsNamed(r.rest) else []
  }

  // ---- what is written is what is parsed -----------------------------------------------------------

  lemma QuotesStep(h: string, tail: string)
    requires '`' !in h
    ensures Quotes("`" + h + "`" + tail) == [h] + Quotes(tail)
  {
    var s := "`" + h + "`" + tail;
    assert s == "" + ['`'] + (h + "`" + tail);
    IndexFirst("", '`', h + "`" + tail);
    var t := h + ['`'] + tail;
    assert s[1..] == t;
    IndexFirst(h, '`', tail);
    assert t[..|h|] == h && t[|h| + 1..] == tail;
  }

  lemma QuotesSkip(c: char, s: string)
    requires c != '`'
    ensures Quotes([c] + s) == Quotes(s)
  {
    var t := [c] + s;
    assert t[1..] == s;
    var i, j := IndexByte(t, '`'), IndexByte(s, '`');
    assert i == if j < 0 then -1 else j + 1;
    if j >= 0 { assert t[i + 1..] == s[j + 1..]; }
  }

  lemma QuotesSkipComma(s: string)
    ensures Quotes(", " + s) == Quotes(s)
  {
    assert ", " + s == [','] + ([' '] + s);
    QuotesSkip(' ', s);
    QuotesSkip(',', [' '] + s);
  }

  lemma {:induction false} ArgsQuoted(hosts: seq<string>)
    requires forall h :: h in hosts ==> GoodHost(h)
    ensures Quotes(Args(hosts)) == hosts
  {
    if hosts != [] {
      assert GoodHost(hosts[0]);
      ArgsQuoted(hosts[1..]);
      MoreQuoted(hosts);
      QuotesStep(hosts[0], More(hosts));
    }
  }

  lemma MoreQuoted(hosts: seq<string>)
    requires hosts != [] && Quotes(Args(hosts[1..])) == hosts[1..]
    ensures Quotes(More(hosts)) == hosts[1..] && hosts == [hosts[0]] + hosts[1..]
  {
    if |hosts| > 1 { QuotesSkipComma(Args(hosts[1..])); }
  }

  lemma {:induction false} ArgsOpen(hosts: seq<string>)
    requires forall h :: h in hosts ==> GoodHost(h)
    ensures ')' !in Args(hosts)
  {
    if hosts != [] {
      assert GoodHost(hosts[0]);
      ArgsOpen(hosts[1..]);
    }
  }

  lemma {:induction false} KeptGood(hosts: seq<string>)
    requires forall h :: h in hosts ==> GoodHost(h)
    ensures Kept(hosts) == hosts
  {
    if hosts != [] {
      KeptGood(hosts[..|hosts| - 1]);
      assert GoodHost(hosts[|hosts| - 1]);
    }
  }

  /** Host names are taken without the blanks around them, and only if something is left. */
  lemma {:induction false} KeptPadded(qs: seq<string>, hosts: seq<string>)
    requires |qs| == |hosts| && forall i :: 0 <= i < |qs| ==> Padded(qs[i], hosts[i])
    ensures Kept(qs) == WithoutEmpty(hosts)
  {
    if qs != [] {
      var n := |qs| - 1;
      KeptPadded(qs[..n], hosts[..n]);
      var l, r :| Blank(l) && Blank(r) && qs[n] == l + hosts[n] + r;
      TrimSpaceExact(l, hosts[n], r);
    }
  }

  ghost predicate Padded(q: string, h: string) {
    Solid(h) && exists l, r :: Blank(l) && Blank(r) && q == l + h + r
  }

  function WithoutEmpty(hosts: seq<string>): seq<string> {
    if hosts == [] then []
    else WithoutEmpty(hosts[..|hosts| - 1]) + if hosts[|hosts| - 1] == "" then [] else [hosts[|hosts| - 1]]
  }

  lemma PaddedSelf(h: string)
    requires Solid(h)
    ensures Padded(h, h)
  {
    assert Blank("") && h == "" + h + "";
  }

  lemma {:induction false} NoneEmptyToDrop(hosts: seq<string>)
    requires "" !in hosts
    ensures WithoutEmpty(hosts) == hosts
  {
    if hosts != [] {
      NoneEmptyToDrop(hosts[..|hosts| - 1]);
      assert hosts[|hosts| - 1] in hosts;
    }
  }

  /** The keywords are `Host` and `HostSNI`, in upper or lower case letters. */
  lemma KeywordSpelled(k: string)
    ensures Keyword(k) <==> ToLower(k) == "host" || ToLower(k) == "hostsni"
  {
    var l := ToLower(k);
    if |k| == 4 { assert l == [l[0], l[1], l[2], l[3]]; }
    if |k| == 7 { assert l == [l[0], l[1], l[2], l[3], l[4], l[5], l[6]]; }
  }

  /** A matcher starts where a keyword with its parenthesis stands. */
  lemma StartsHostSpelled(s: string)
    ensures StartsHost(s) <==> exists k :: Keyword(k) && HasPrefix(s, k + "(")
  {
    if StartsHost(s) {
      var k := s[..Opening(s)];
      assert Keyword(k) && s[..|k| + 1] == k + "(";
    }
    if k :| Keyword(k) && HasPrefix(s, k + "(") {
      assert forall i :: 0 <= i <= |k| ==> s[i] == (k + "(")[i];
      assert HostWord(s) && (|k| == 7 ==> SniWord(s));
      assert |k| == 4 ==> s[4] == '(';
    }
  }

  /** A whole matcher stands at the beginning of `s`. */
  ghost predicate Matches(s: string) {
    exists k, args, rest :: IsMatch(s, k, args, rest)
  }

  ghost predicate IsMatch(s: string, k: string, args: string, rest: string) {
    Keyword(k) && ')' !in args && s == k + "(" + args + ")" + rest
  }

  lemma MatchHereExact(s: string)
    ensures MatchHere(s).Some? <==> Matches(s)
  {
    if k, args, rest :| IsMatch(s, k, args, rest) {
      MatchClause(k, args, rest);
    }
    if MatchHere(s).Some? {
      var n := Opening(s);
      var u := s[n + 1..];
      var e := IndexByte(u, ')');
      KeywordAt(s);
      Around(s, n, '(');
      Around(u, e, ')');
      Regroup(s[..n], u[..e], u[e + 1..]);
      assert IsMatch(s, s[..n], u[..e], u[e + 1..]);
    }
  }

  lemma KeywordAt(s: string)
    requires StartsHost(s)
    ensures Keyword(s[..Opening(s)])
  {
  }

  lemma Around(s: string, i: nat, c: char)
    requires i < |s| && s[i] == c
    ensures s == s[..i] + [c] + s[i + 1..]
  {
  }

  lemma Regroup(k: string, args: string, rest: string)
    ensures k + ['('] + (args + [')'] + rest) == k + "(" + args + ")" + rest
  {
  }

  /** Without a whole matcher anywhere there are no arguments. */
  lemma {:induction false} NoMatchNoArgs(s: string)
    requires forall i :: 0 <= i < |s| ==> !Matches(s[i..])
    ensures HostArgs(s) == []
  {
    if s != "" {
      assert s[0..] == s;
      MatchHereExact(s);
      forall i | 0 <= i < |s[1..]| ensures !Matches(s[1..][i..]) {
        assert s[1..][i..] == s[i + 1..];
      }
      NoMatchNoArgs(s[1..]);
    }
  }

  /** The leftmost matcher comes first, and the search goes on behind it. */
  lemma {:induction false} LeftmostMatchFirst(p: string, k: string, args: string, rest: string)
    requires Keyword(k) && ')' !in args
    requires var s := p + (k + "(" + args + ")" + rest); forall i :: 0 <= i < |p| ==> !Matches(s[i..])
    ensures HostArgs(p + (k + "(" + args + ")" + rest)) == [args] + HostArgs(rest)
  {
    var tail := k + "(" + args + ")" + rest;
    var s := p + tail;
    MatchClause(k, args, rest);
    if p == "" {
      assert s == tail;
    } else {
      assert s[0..] == s && s[1..] == p[1..] + tail;
      MatchHereExact(s);
      forall i | 0 <= i < |p[1..]| ensures !Matches((p[1..] + tail)[i..]) {
        assert (p[1..] + tail)[i..] == s[i + 1..];
      }
      LeftmostMatchFirst(p[1..], k, args, rest);
    }
  }

  /** Quoted texts are what lies between each two backticks; a last single one begins nothing. */
  lemma QuotesExact(p: string, h: string, tail: string)
    requires '`' !in p && '`' !in h
    ensures Quotes(p) == [] && Quotes(p + "`" + h) == []
    ensures Quotes(p + "`" + h + "`" + tail) == [h] + Quotes(tail)
  {
    var s, t := p + ['`'] + h, h + ['`'] + tail;
    IndexFirst(p, '`', h);
    assert s[|p| + 1..] == h && s == p + "`" + h;
    IndexFirst(p, '`', t);
    assert (p + ['`'] + t)[|p| + 1..] == t && p + ['`'] + t == p + "`" + h + "`" + tail;
    IndexFirst(h, '`', tail);
    assert t[..|h|] == h && t[|h| + 1..] == tail;
  }

  lemma MatchClause(keyword: string, args: string, rest: string)
    requires Keyword(keyword) && ')' !in args
    ensures MatchHere(keyword + "(" + args + ")" + rest) == Some(Match(args, rest))
  {
    var s := keyword + "(" + args + ")" + rest;
    var n := |keyword|;
    assert s[n] == '(' && forall i :: 0 <= i < n ==> s[i] == keyword[i];
    assert HostWord(s) && Opening(s) == n;
    var u := s[n + 1..];
    assert u == args + [')'] + rest;
    IndexFirst(args, ')', rest);
    assert u[..|args|] == args && u[|args| + 1..] == rest;
  }

  lemma SkipOne(s: string)
    requires s != "" && !StartsHost(s)
    ensures HostArgs(s) == HostArgs(s[1..])
  {
  }

  lemma SkipSeparator(and: bool, s: string)
    ensures HostArgs(Separator(and) + s) == HostArgs(s)
  {
    var c := if and then '&' else '|';
    var s1 := [' '] + s;
    var s2 := [c] + s1;
    var s3 := [c] + s2;
    var s4 := [' '] + s3;
    assert Separator(and) + s == s4;
    assert s4[1..] == s3 && s3[1..] == s2 && s2[1..] == s1 && s1[1..] == s;
    SkipOne(s4);
    SkipOne(s3);
    SkipOne(s2);
    SkipOne(s1);
  }

  /** A matcher does not reach across a space. */
  lemma NoMatchAcross(q: string, rest: string)
    requires q != "" && (rest == "" || rest[0] == ' ') && StartsHost(q + rest)
    ensures StartsHost(q)
  {
    var s := q + rest;
    assert forall i :: 0 <= i < |q| ==> s[i] == q[i];
    assert |q| < |s| ==> s[|q|] == ' ';
    assert |q| > 4;
    if SniWord(s) { assert |q| > 7; }
  }

  lemma {:induction false} SkipOther(text: string, rest: string)
    requires NoHost(text) && (rest == "" || rest[0] == ' ')
    ensures HostArgs(text + rest) == HostArgs(rest)
  {
    if text == "" {
      assert text + rest == rest;
    } else {
      assert text[0..] == text;
      if StartsHost(text + rest) { NoMatchAcross(text, rest); }
      SkipOne(text + rest);
      assert (text + rest)[1..] == text[1..] + rest;
      NoHostTail(text);
      SkipOther(text[1..], rest);
    }
  }

  lemma NoHostTail(text: string)
    requires NoHost(text) && text != ""
    ensures NoHost(text[1..])
  {
    forall i | 0 <= i < |text[1..]| ensures !StartsHost(text[1..][i..]) {
      assert text[1..][i..] == text[i + 1..];
    }
  }

  lemma ClauseArgs(c: Clause, rest: string)
    requires GoodClause(c) && (rest == "" || rest[0] == ' ')
    ensures HostArgs(ClauseText(c) + rest) == (if c.Hosts? then [Args(c.hosts)] else []) + HostArgs(rest)
  {
    match c
    case Hosts(keyword, hosts) =>
      ArgsOpen(hosts);
      MatchClause(keyword, Args(hosts), rest);
      assert ClauseText(c) + rest != "";
    case Other(text) =>
      SkipOther(text, rest);
  }

  lemma {:induction false} FromArgsFirst(a: string, args: seq<string>)
    ensures FromArgs([a] + args) == Kept(Quotes(a)) + FromArgs(args)
  {
    if args == [] {
      assert ([a] + args)[..0] == [] && [a] + args == [a];
      assert FromArgs([a]) == FromArgs([]) + Kept(Quotes(a));
    } else {
      var n := |args| - 1;
      FromArgsFirst(a, args[..n]);
      assert ([a] + args)[..n + 1] == [a] + args[..n];
      AppendAssoc(Kept(Quotes(a)), FromArgs(args[..n]), Kept(Quotes(args[n])));
    }
  }

  lemma AppendAssoc(a: seq<string>, b: seq<string>, c: seq<string>)
    ensures (a + b) + c == a + (b + c)
  {
  }

  lemma ClauseHosts(c: Clause, rest: string)
    requires GoodClause(c) && (rest == "" || rest[0] == ' ')
    ensures HostsOf(ClauseText(c) + rest) == Named(c) + HostsOf(rest)
  {
    ClauseArgs(c, rest);
    if c.Hosts? {
      FromArgsFirst(Args(c.hosts), HostArgs(rest));
      ArgsQuoted(c.hosts);
      KeptGood(c.hosts);
    } else {
      assert [] + HostArgs(rest) == HostArgs(rest);
    }
  }

  /** Printing and parsing: for every rule of host clauses and other clauses, `parseHosts`
      returns exactly the listed hosts, in order. */
  lemma {:induction false} ParseOfPrint(r: Rule)
    requires GoodRule(r)
    ensures HostsOf(RuleText(r)) == HostsNamed(r)
  {
    match r
    case One(c) =>
      ClauseHosts(c, "");
      assert ClauseText(c) + "" == ClauseText(c);
      assert HostsOf("") == [];
    case Join(c, and, rest) =>
      ParseOfPrint(rest);
      ClauseHosts(c, Separator(and) + RuleText(rest));
      SkipSeparator(and, RuleText(rest));
  }

  /** `HostRegexp` is not taken for a host matcher. */
  lemma RegexpIsOther(arg: string)
    requires NoHost(arg)
    ensures NoHost("HostRegexp(" + arg)
  {
    var t := "HostRegexp(" + arg;
    forall i | 0 <= i < |t| ensures !StartsHost(t[i..]) {
      if i < 11 {
        assert forall j :: 0 <= j < 11 - i ==> t[i..][j] == "HostRegexp("[i + j];
      } else {
        assert t[i..] == arg[i - 11..];
      }
    }
  }
}
