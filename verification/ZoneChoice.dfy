/** Which listed zone a name belongs to: the domain filter of the reconciler and
    the zone choice of the Cloudflare provider. */
module ZoneChoice {
  import opened GoText
  import opened Endpoints
  import opened Registry

  function Undotted(s: string): string {
    TrimSuffix(s, ".")
  }

  /** `zone` is the name itself or a suffix of it at a label boundary. */
  predicate Within(name: string, zone: string) {
    name == zone || HasSuffix(name, "." + zone)
  }

  /** `inDomain`: an empty filter accepts every name. */
  predicate InDomain(filter: seq<string>, name: string) {
    filter == [] || exists z :: z in filter && Within(Undotted(name), Undotted(z))
  }

  /** `s` without its final dot, if it has one. */
  ghost predicate Bare(s: string, b: string) {
    s == b + "." || (s == b && (b == "" || b[|b| - 1] != '.'))
  }

  lemma BareIsUndotted(s: string, b: string)
    ensures Bare(s, b) <==> b == Undotted(s)
  {
    if s != "" {
      assert s[|s| - 1..] == [s[|s| - 1]] && s == s[..|s| - 1] + [s[|s| - 1]];
    }
    if s == b + "." {
      assert s[|s| - 1] == '.' && s[..|s| - 1] == b;
    }
  }

  lemma WithinSpelled(n: string, z: string)
    ensures Within(n, z) <==> n == z || exists p :: n == p + "." + z
  {
    if HasSuffix(n, "." + z) {
      var p := n[..|n| - |z| - 1];
      assert n == p + ("." + z) && n == p + "." + z;
    }
    if p :| n == p + "." + z {
      assert n == p + ("." + z);
      assert n[|n| - |z| - 1..] == "." + z;
    }
  }

  /** The filter in plain words: none at all, or some entry is the name or its end after a dot, where a final dot
      of either does not matter. */
  lemma FilterSpelled(filter: seq<string>, name: string, n: string)
    requires Bare(name, n)
    ensures InDomain(filter, name) <==>
      filter == [] || exists z, b :: z in filter && Bare(z, b) && (n == b || exists p :: n == p + "." + b)
  {
    BareIsUndotted(name, n);
    forall z, b | z in filter && Bare(z, b) ensures Within(n, b) <==> n == b || exists p :: n == p + "." + b {
      WithinSpelled(n, b);
    }
    forall z, b ensures Bare(z, b) <==> b == Undotted(z) {
      BareIsUndotted(z, b);
    }
    if InDomain(filter, name) && filter != [] {
      var z :| z in filter && Within(n, Undotted(z));
      assert Bare(z, Undotted(z));
    }
  }

  method CheckInDomain(filter: seq<string>, name: string) returns (ok: bool)
    ensures ok <==> InDomain(filter, name)
  {
    if |filter| == 0 {
      return true;
    }
    var n := Undotted(name);
    for i := 0 to |filter|
      invariant forall j :: 0 <= j < i ==> !Within(n, Undotted(filter[j]))
    {
      if Within(n, Undotted(filter[i])) {
        return true;
      }
    }
    return false;
  }

  /** `best` is what `longestZone` promises: a listed zone containing the name that
      no listed zone containing it outranks, or "" when no nonempty one contains it. */
  ghost predicate IsLongest(zones: seq<string>, name: string, best: string) {
    && (best == "" || exists z :: z in zones && best == Undotted(z) && Within(Undotted(name), best))
    && (forall z :: z in zones && Within(Undotted(name), Undotted(z)) ==> |Undotted(z)| <= |best|)
  }

  /** `longestZone`. */
  method LongestZone(name: string, zones: seq<string>) returns (best: string)
    ensures best == Longest(zones, name) && IsLongest(zones, name, best)
  {
    var n := Undotted(name);
    best := "";
    for i := 0 to |zones|
      invariant best == Longest(zones[..i], name)
      invariant IsLongest(zones[..i], name, best)
    {
      assert zones[..i + 1] == zones[..i] + [zones[i]];
      var z := Undotted(zones[i]);
      if Within(n, z) && |z| > |best| {
        best := z;
      }
    }
    assert zones[..|zones|] == zones;
  }

  function Longest(zones: seq<string>, name: string): string {
    if zones == [] then "" else
      var best := Longest(zones[..|zones| - 1], name);
      var z := Undotted(zones[|zones| - 1]);
      if Within(Undotted(name), z) && |z| > |best| then z else best
  }

  lemma {:induction false} LongestIsLongest(zones: seq<string>, name: string)
    ensures IsLongest(zones, name, Longest(zones, name))
  {
    if zones != [] {
      var init := zones[..|zones| - 1];
      LongestIsLongest(init, name);
      assert zones == init + [zones[|zones| - 1]];
    }
  }

  /** Two zones of one length that contain a name are the same zone. */
  lemma SameLengthSameZone(name: string, y: string, z: string)
    requires Within(name, y) && Within(name, z) && |y| == |z|
    ensures y == z
  {
    SuffixTail(name, y);
    SuffixTail(name, z);
  }

  lemma SuffixTail(name: string, z: string)
    requires Within(name, z)
    ensures |z| <= |name| && name[|name| - |z|..] == z
    ensures |z| < |name| ==> name[|name| - |z| - 1] == '.'
  {
    if HasSuffix(name, "." + z) {
      var t := name[|name| - |z| - 1..];
      assert t == "." + z;
      assert t[0] == '.' && t[1..] == z;
    }
  }

  lemma TailSuffix(name: string, z: string)
    requires |z| < |name| && name[|name| - |z|..] == z && name[|name| - |z| - 1] == '.'
    ensures Within(name, z)
  {
    assert name[|name| - |z| - 1..] == "." + z;
  }

  /** The choice depends on which zones are listed, not on their order or multiplicity. */
  lemma LongestUnique(zones: seq<string>, other: seq<string>, name: string, a: string, b: string)
    requires forall z :: z in zones <==> z in other
    requires IsLongest(zones, name, a) && IsLongest(other, name, b)
    ensures a == b
  {
    if a != "" && b != "" {
      SameLengthSameZone(Undotted(name), a, b);
    }
  }

  lemma LongestOrderIrrelevant(zones: seq<string>, other: seq<string>, name: string)
    requires forall z :: z in zones <==> z in other
    ensures Longest(zones, name) == Longest(other, name)
  {
    LongestIsLongest(zones, name);
    LongestIsLongest(other, name);
    LongestUnique(zones, other, name, Longest(zones, name), Longest(other, name));
  }

  predicate ProperZones(zones: seq<string>) {
    zones != [] && forall z :: z in zones ==> z != "" && !HasSuffix(z, ".")
  }

  /** A zone is found exactly for the names the domain filter with those zones accepts. */
  lemma ZoneFoundIffInDomain(zones: seq<string>, name: string)
    requires ProperZones(zones)
    ensures Longest(zones, name) != "" <==> InDomain(zones, name)
  {
    LongestIsLongest(zones, name);
  }

  lemma MarkerShape(r: Owner, k: Key)
    ensures var t := ToLower(TypeText(k.rtype)); var m := TxtName(r, k);
      && |m| == |r.prefix| + |t| + 1 + |k.name| && t != ""
      && m[|m| - |k.name|..] == k.name && m[|m| - |k.name| - 1] == '-'
      && m[|r.prefix|..] == t + "-" + k.name && |m| - |t + "-" + k.name| == |r.prefix|
      && (forall i :: |r.prefix| <= i < |m| - |k.name| ==> m[i] != '.')
  {
    var t, m := ToLower(TypeText(k.rtype)), TxtName(r, k);
    LowerTypeText(k.rtype);
    assert m == (r.prefix + t + "-") + k.name;
    assert forall i :: |r.prefix| <= i < |r.prefix| + |t| ==> m[i] == t[i - |r.prefix|] != '.';
  }

  /** A listed zone contains the record name or its marker name, but not both. */
  ghost predicate Separates(zones: seq<string>, r: Owner, k: Key) {
    || k.name in zones
    || exists z :: z in zones && Within(TxtName(r, k), z) && HasSuffix(z, ToLower(TypeText(k.rtype)) + "-" + k.name)
  }

  lemma ZoneOfMarker(z: string, r: Owner, k: Key)
    requires Within(TxtName(r, k), z) && !HasSuffix(z, ToLower(TypeText(k.rtype)) + "-" + k.name)
    ensures Within(k.name, z)
  {
    var m, n, t := TxtName(r, k), k.name, ToLower(TypeText(k.rtype));
    MarkerShape(r, k);
    SuffixTail(m, z);
    if |z| < |n| {
      assert n[|n| - |z|..] == m[|m| - |z|..];
      TailSuffix(n, z);
    } else {
      SuffixesNest(m, z, t + "-" + n);
    }
  }

  lemma SuffixesNest(m: string, y: string, z: string)
    requires |y| <= |m| && m[|m| - |y|..] == y && |z| <= |m| && m[|m| - |z|..] == z
    ensures |y| >= |z| ==> HasSuffix(y, z)
  {
    if |y| >= |z| {
      assert y[|y| - |z|..] == m[|m| - |z|..];
    }
  }

  lemma ZoneOfName(z: string, r: Owner, k: Key)
    requires Within(k.name, z) && z != k.name
    ensures Within(TxtName(r, k), z)
  {
    var m, n := TxtName(r, k), k.name;
    MarkerShape(r, k);
    SuffixTail(n, z);
    assert m[|m| - |z|..] == n[|n| - |z|..];
    TailSuffix(m, z);
  }

  lemma UndottedProper(zones: seq<string>, r: Owner, k: Key)
    requires ProperZones(zones) && k.name != "" && !HasSuffix(k.name, ".")
    ensures Undotted(k.name) == k.name && Undotted(TxtName(r, k)) == TxtName(r, k)
    ensures forall z :: z in zones ==> Undotted(z) == z
  {
    MarkerShape(r, k);
    var m, n := TxtName(r, k), k.name;
    assert m[|m| - 1] == n[|n| - 1];
    assert n[|n| - 1..] == [n[|n| - 1]] && m[|m| - 1..] == [m[|m| - 1]];
  }

  /** A record and its marker land in the same zone exactly when no listed zone comes between them. */
  lemma MarkerSharesZone(zones: seq<string>, r: Owner, k: Key)
    requires ProperZones(zones) && k.name != "" && !HasSuffix(k.name, ".")
    ensures Longest(zones, TxtName(r, k)) == Longest(zones, k.name) <==> !Separates(zones, r, k)
  {
    var m, n := TxtName(r, k), k.name;
    UndottedProper(zones, r, k);
    LongestIsLongest(zones, m);
    LongestIsLongest(zones, n);
    var zm, zn := Longest(zones, m), Longest(zones, n);
    MarkerShape(r, k);
    if n in zones {
      assert |zn| >= |n|;
      SuffixTail(n, zn);
      assert zn == n;
      if zm == n {
        SuffixTail(m, zm);
      }
    } else if z :| z in zones && Within(m, z) && HasSuffix(z, ToLower(TypeText(k.rtype)) + "-" + n) {
      assert |zm| >= |z| > |n|;
      if zn != "" { SuffixTail(n, zn); }
    } else {
      if zm != "" { ZoneOfMarker(zm, r, k); }
      if zn != "" { ZoneOfName(zn, r, k); }
      if zm != "" && zn != "" { SameLengthSameZone(n, zm, zn); }
    }
  }
}
