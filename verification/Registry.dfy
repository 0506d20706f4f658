/** Record ownership through companion TXT records (internal/registry). */
module Registry {
  import opened GoText
  import opened Endpoints
  import opened Planning

  const HERITAGE: string := "heritage=munpae"
  const OWNER_TAG: string := "munpae/owner="

  /** The configuration of one registry: the owner id it writes and the prefix of its marker names. */
  datatype Owner = Owner(id: string, prefix: string)

  function MarkerValue(r: Owner): string {
    HERITAGE + "," + OWNER_TAG + r.id
  }

  function TxtName(r: Owner, k: Key): string {
    r.prefix + ToLower(TypeText(k.rtype)) + "-" + k.name
  }

  function MarkerKey(r: Owner, k: Key): Key {
    RecordKey(TXT, TxtName(r, k))
  }

  /** `ownership`: the marker of a managed record. */
  function Marker(r: Owner, e: Endpoint): Endpoint {
    Endpoint(TxtName(r, e.Key()), [MarkerValue(r)], TXT, 0, map[])
  }

  predicate OwnsValue(r: Owner, v: string) {
    Contains(v, HERITAGE) && Contains(v, OWNER_TAG + r.id)
  }

  /** `owns` looks at the first target only. */
  predicate Owns(r: Owner, e: Endpoint) {
    e.targets != [] && OwnsValue(r, e.targets[0])
  }

  /** `realKey`: the key text a marker name stands for. */
  function RealKey(r: Owner, txtName: string): Option<string> {
    if r.prefix != "" && TrimPrefix(txtName, r.prefix) == txtName then None
    else
      var s := TrimPrefix(txtName, r.prefix);
      var i := IndexByte(s, '-');
      if i <= 0 || i == |s| - 1 then None
      else Some(ToUpper(s[..i]) + "/" + s[i + 1..])
  }

  // ---- marker names ---------------------------------------------------------

  lemma LowerTypeText(t: RecordType)
    ensures '-' !in ToLower(TypeText(t)) && '.' !in ToLower(TypeText(t)) && ToUpper(ToLower(TypeText(t))) == TypeText(t)
    ensures ToLower(TypeText(t)) != ""
  {
    match t
    case A => assert ToLower("A") == "a";
    case AAAA => assert ToLower("AAAA") == "aaaa";
    case CNAME => assert ToLower("CNAME") == "cname";
    case TXT => assert ToLower("TXT") == "txt";
  }

  /** `realKey` undoes `txtName` for every prefix, type and nonempty name. */
  lemma RealKeyOfTxtName(r: Owner, k: Key)
    ensures RealKey(r, TxtName(r, k)) == if k.name == "" then None else Some(KeyText(k))
  {
    var t := ToLower(TypeText(k.rtype));
    var s := t + "-" + k.name;
    LowerTypeText(k.rtype);
    assert TxtName(r, k) == r.prefix + s;
    assert TrimPrefix(r.prefix + s, r.prefix) == s;
    IndexFirst(t, '-', k.name);
    assert s[..|t|] == t && s[|t| + 1..] == k.name;
  }

  /** Different keys have different marker names, whatever the prefix. */
  lemma TxtNameInjective(r: Owner, k: Key, l: Key)
    ensures TxtName(r, k) == TxtName(r, l) <==> k == l
  {
    if TxtName(r, k) == TxtName(r, l) {
      assert TxtName(r, k)[|r.prefix|..] == Unprefixed(k) && TxtName(r, l)[|r.prefix|..] == Unprefixed(l);
      UnprefixedParts(k);
      UnprefixedParts(l);
    }
  }

  function Unprefixed(k: Key): string {
    ToLower(TypeText(k.rtype)) + "-" + k.name
  }

  /** Type and name can be read off at the first hyphen. */
  lemma UnprefixedParts(k: Key)
    ensures var s := Unprefixed(k); var i := IndexByte(s, '-');
      0 <= i < |s| && ToUpper(s[..i]) == TypeText(k.rtype) && s[i + 1..] == k.name
  {
    var t := ToLower(TypeText(k.rtype));
    LowerTypeText(k.rtype);
    IndexFirst(t, '-', k.name);
    assert Unprefixed(k)[..|t|] == t;
  }

  predicate PlainName(s: string) {
    forall i :: 0 <= i < |s| ==> s[i] != '/' && !('A' <= s[i] <= 'Z')
  }

  lemma UpperSplit(u: string, rest: string, k: Key)
    requires '/' !in u && u + "/" + rest == KeyText(k)
    ensures u == TypeText(k.rtype) && rest == k.name
  {
    var full, n := u + "/" + rest, |TypeText(k.rtype)|;
    assert full[|u|] == '/' && KeyText(k)[n] == '/';
    assert forall j :: 0 <= j < n ==> KeyText(k)[j] == TypeText(k.rtype)[j] != '/';
    assert forall j :: 0 <= j < |u| ==> full[j] == u[j] != '/';
    assert |u| == n;
    assert full[..n] == u && KeyText(k)[..n] == TypeText(k.rtype);
    assert full[n + 1..] == rest && KeyText(k)[n + 1..] == k.name;
  }

  lemma LowerBack(x: string, t: RecordType)
    requires PlainName(x) && ToUpper(x) == TypeText(t)
    ensures x == ToLower(TypeText(t)) && '/' !in ToUpper(x)
  {
    forall j | 0 <= j < |x| ensures x[j] == ToLower(TypeText(t))[j] {
      assert UpperChar(x[j]) == TypeText(t)[j];
    }
  }

  lemma ClaimedPart(s: string, i: nat, k: Key)
    requires i < |s| && s[i] == '-' && PlainName(s) && ToUpper(s[..i]) + "/" + s[i + 1..] == KeyText(k)
    ensures s == ToLower(TypeText(k.rtype)) + "-" + k.name
  {
    var x := s[..i];
    assert forall j :: 0 <= j < |x| ==> ToUpper(x)[j] == UpperChar(x[j]) != '/';
    UpperSplit(ToUpper(x), s[i + 1..], k);
    LowerBack(x, k.rtype);
    assert s == x + "-" + s[i + 1..];
  }

  lemma ClaimForm(r: Owner, m: string, text: string) returns (s: string, i: nat)
    requires RealKey(r, m) == Some(text)
    ensures m == r.prefix + s && i < |s| && s[i] == '-' && text == ToUpper(s[..i]) + "/" + s[i + 1..]
  {
    s := TrimPrefix(m, r.prefix);
    i := IndexByte(s, '-');
  }

  lemma PlainTail(prefix: string, s: string)
    requires PlainName(prefix + s)
    ensures PlainName(s)
  {
    assert forall j :: 0 <= j < |s| ==> s[j] == (prefix + s)[|prefix| + j];
  }

  lemma ClaimedNameIsMarker(r: Owner, m: string, k: Key)
    requires PlainName(m) && RealKey(r, m) == Some(KeyText(k))
    ensures m == TxtName(r, k)
  {
    var s, i := ClaimForm(r, m, KeyText(k));
    PlainTail(r.prefix, s);
    ClaimedPart(s, i, k);
    TxtNameForm(r, k);
  }

  lemma TxtNameForm(r: Owner, k: Key)
    ensures TxtName(r, k) == r.prefix + (ToLower(TypeText(k.rtype)) + "-" + k.name)
  {
  }

  /** Among lower-case names without a slash, the marker names are the only ones that claim a key. */
  lemma OnlyMarkersClaim(r: Owner, m: string, k: Key)
    requires PlainName(m) && k.name != ""
    ensures RealKey(r, m) == Some(KeyText(k)) <==> m == TxtName(r, k)
  {
    RealKeyOfTxtName(r, k);
    if RealKey(r, m) == Some(KeyText(k)) {
      ClaimedNameIsMarker(r, m, k);
    }
  }

  // ---- the ownership test ---------------------------------------------------

  /** Markers as they appear in DNS. */
  lemma MarkerSpelled(r: Owner, e: Endpoint)
    ensures Marker(r, e).targets == ["heritage=munpae,munpae/owner=" + r.id]
    ensures Marker(r, e).rtype == TXT && Marker(r, e).ttl == 0 && Marker(r, e).labels == map[]
    ensures Marker(r, e).name == r.prefix + (match e.rtype
      case A => "a-"
      case AAAA => "aaaa-"
      case CNAME => "cname-"
      case TXT => "txt-") + e.name
  {
    MarkerForm(r);
    match e.rtype
    case A => assert ToLower("A") == "a";
    case AAAA => assert ToLower("AAAA") == "aaaa";
    case CNAME => assert ToLower("CNAME") == "cname";
    case TXT => assert ToLower("TXT") == "txt";
  }

  lemma MarkerHasHeritage(r: Owner)
    ensures Contains(MarkerValue(r), HERITAGE)
  {
    assert OccursAt(MarkerValue(r), HERITAGE, 0);
  }

  const MARKER_HEAD: string := "heritage=munpae,munpae/owner="

  lemma MarkerForm(r: Owner)
    ensures MarkerValue(r) == MARKER_HEAD + r.id
  {
    assert HERITAGE + "," + OWNER_TAG == MARKER_HEAD;
  }

  /** Only one place in the head of a marker value has an `m` and six characters on a slash. */
  lemma HeadPositions(i: nat)
    requires i < 29 && MARKER_HEAD[i] == 'm' && (i + 6 < 29 ==> MARKER_HEAD[i + 6] == '/')
    ensures i == 16
  {
    assert |MARKER_HEAD| == 29 && MARKER_HEAD[15] == ',';
    assert i == 9 || i == 16;
  }

  lemma TagChars(v: string, sub: string, i: nat)
    requires HasPrefix(sub, OWNER_TAG) && OccursAt(v, sub, i)
    ensures i + 6 < |v| && v[i] == 'm' && v[i + 6] == '/'
  {
    assert v[i..i + |sub|][0] == v[i] && v[i..i + |sub|][6] == v[i + 6];
    assert sub[0] == OWNER_TAG[0] && sub[6] == OWNER_TAG[6];
  }

  /** Where the tag can start inside a marker value: at its own place, or inside the owner id. */
  lemma TagPositions(b: Owner, sub: string, i: int)
    requires HasPrefix(sub, OWNER_TAG) && OccursAt(MarkerValue(b), sub, i)
    ensures i == 16 || i >= 29
  {
    MarkerForm(b);
    TagChars(MarkerValue(b), sub, i);
    assert |MARKER_HEAD| == 29;
    if i < 29 {
      assert MarkerValue(b)[i] == MARKER_HEAD[i];
      assert i + 6 < 29 ==> MarkerValue(b)[i + 6] == MARKER_HEAD[i + 6];
      HeadPositions(i);
    }
  }

  lemma TagFound(a: Owner, b: Owner, i: int)
    requires OccursAt(MarkerValue(b), OWNER_TAG + a.id, i)
    ensures HasPrefix(b.id, a.id) || Contains(b.id, OWNER_TAG + a.id)
  {
    var v, sub := MarkerValue(b), OWNER_TAG + a.id;
    TagPositions(b, sub, i);
    assert v == (HERITAGE + "," + OWNER_TAG) + b.id;
    assert v[29..] == b.id;
    if i == 16 {
      assert v[16..16 + |sub|][13..] == sub[13..];
      assert b.id[..|a.id|] == a.id;
    } else {
      assert OccursAt(b.id, sub, i - 29);
    }
  }

  lemma TagPlaced(a: Owner, b: Owner, i: int)
    requires (i == -13 && HasPrefix(b.id, a.id)) || (0 <= i && OccursAt(b.id, OWNER_TAG + a.id, i))
    ensures OccursAt(MarkerValue(b), OWNER_TAG + a.id, 29 + i)
  {
    var v, sub := MarkerValue(b), OWNER_TAG + a.id;
    assert v == (HERITAGE + ",") + (OWNER_TAG + b.id);
    if i == -13 {
      assert v[16..16 + |sub|] == OWNER_TAG + b.id[..|a.id|];
    } else {
      assert v[29 + i..29 + i + |sub|] == b.id[i..i + |sub|];
    }
  }

  /** A marker written by `b` is claimed by `a` exactly when `a`'s id is a prefix of
      `b`'s, or `b`'s id itself contains the owner tag followed by `a`'s id. */
  lemma OwnershipExact(a: Owner, b: Owner)
    ensures OwnsValue(a, MarkerValue(b)) <==> HasPrefix(b.id, a.id) || Contains(b.id, OWNER_TAG + a.id)
  {
    MarkerHasHeritage(b);
    var v, sub := MarkerValue(b), OWNER_TAG + a.id;
    if Contains(v, sub) {
      var i :| 0 <= i <= |v| && OccursAt(v, sub, i);
      TagFound(a, b, i);
    }
    if HasPrefix(b.id, a.id) {
      TagPlaced(a, b, -13);
    }
    if Contains(b.id, sub) {
      var i :| 0 <= i <= |b.id| && OccursAt(b.id, sub, i);
      TagPlaced(a, b, i);
    }
  }

  lemma OwnsItsMarkers(r: Owner)
    ensures OwnsValue(r, MarkerValue(r))
  {
    OwnershipExact(r, r);
  }

  /** The documentation asks for distinct owner ids only. That does not separate two
      instances: the default id claims every marker of one that extends it. */
  lemma DistinctIdsDoNotSeparate(prefix: string)
    ensures var a, b := Owner("munpae", prefix), Owner("munpae-cf", prefix);
      a.id != b.id && OwnsValue(a, MarkerValue(b)) && !OwnsValue(b, MarkerValue(a))
  {
    var a, b := Owner("munpae", prefix), Owner("munpae-cf", prefix);
    OwnershipExact(a, b);
    OwnershipExact(b, a);
    assert b.id[..|a.id|] == a.id;
  }

  // ---- reading: the owned records -------------------------------------------

  /** Some own marker among `all` stands for the key text. */
  ghost predicate ClaimedIn(r: Owner, all: seq<Endpoint>, text: string) {
    exists i :: 0 <= i < |all| && all[i].rtype == TXT && Owns(r, all[i]) && RealKey(r, all[i].name) == Some(text)
  }

  ghost function OwnedOf(r: Owner, all: seq<Endpoint>, es: seq<Endpoint>): seq<Endpoint> {
    if es == [] then [] else
      var last := es[|es| - 1];
      OwnedOf(r, all, es[..|es| - 1]) +
      if last.rtype != TXT && ClaimedIn(r, all, KeyText(last.Key())) then [last] else []
  }

  /** `Records` after the wrapped provider has answered with `all`. */
  method Records(r: Owner, all: seq<Endpoint>) returns (out: seq<Endpoint>)
    ensures out == OwnedOf(r, all, all)
  {
    var owned: set<string> := {};
    for i := 0 to |all|
      invariant forall text :: text in owned <==>
        exists j :: 0 <= j < i && all[j].rtype == TXT && Owns(r, all[j]) && RealKey(r, all[j].name) == Some(text)
    {
      if all[i].rtype == TXT && Owns(r, all[i]) {
        var key := RealKey(r, all[i].name);
        if key.Some? {
          owned := owned + {key.value};
        }
      }
    }
    assert forall text :: text in owned <==> ClaimedIn(r, all, text);
    out := [];
    for i := 0 to |all|
      invariant out == OwnedOf(r, all, all[..i])
    {
      assert all[..i + 1][..i] == all[..i];
      if all[i].rtype != TXT && KeyText(all[i].Key()) in owned {
        out := out + [all[i]];
      }
    }
    assert all[..|all|] == all;
  }

  /** `existingOwnership` after the wrapped provider has answered with `all`. */
  method ExistingOwnership(r: Owner, all: seq<Endpoint>) returns (names: set<string>)
    ensures names == Existing(r, all)
  {
    names := {};
    for i := 0 to |all|
      invariant names == Existing(r, all[..i])
    {
      assert all[..i + 1] == all[..i] + [all[i]];
      if all[i].rtype == TXT && Owns(r, all[i]) {
        names := names + {all[i].name};
      }
    }
    assert all[..|all|] == all;
  }

  function Existing(r: Owner, all: seq<Endpoint>): set<string> {
    set e | e in all && e.rtype == TXT && Owns(r, e) :: e.name
  }

  // ---- writing: changes with their markers ----------------------------------

  /** The markers of those endpoints whose marker is (`present`) or is not among the existing ones. */
  function Markers(r: Owner, es: seq<Endpoint>, existing: set<string>, present: bool): seq<Endpoint> {
    if es == [] then [] else
      var last := es[|es| - 1];
      Markers(r, es[..|es| - 1], existing, present) +
      if (TxtName(r, last.Key()) in existing) == present then [Marker(r, last)] else []
  }

  function Decorated(r: Owner, ch: Changes, existing: set<string>): Changes {
    Changes(ch.create + Markers(r, ch.create, existing, false), ch.update, ch.updateOld,
            ch.delete + Markers(r, ch.delete, existing, true))
  }

  /** The loops of `ApplyChanges`: creates with their missing markers, deletes with their present ones. */
  method AddMarkers(r: Owner, es: seq<Endpoint>, existing: set<string>, present: bool) returns (out: seq<Endpoint>)
    ensures out == es + Markers(r, es, existing, present)
  {
    out := es;
    for i := 0 to |es|
      invariant out == es + Markers(r, es[..i], existing, present)
    {
      MarkersNext(r, es, existing, present, i);
      var own := Marker(r, es[i]);
      if (own.name in existing) == present {
        out := out + [own];
      }
    }
    assert es[..|es|] == es;
  }

  lemma MarkersNext(r: Owner, es: seq<Endpoint>, existing: set<string>, present: bool, i: nat)
    requires i < |es|
    ensures es + Markers(r, es[..i + 1], existing, present) ==
      if (TxtName(r, es[i].Key()) in existing) == present
        then es + Markers(r, es[..i], existing, present) + [Marker(r, es[i])]
        else es + Markers(r, es[..i], existing, present)
  {
    assert es[..i + 1][..i] == es[..i];
  }

  method Decorate(r: Owner, ch: Changes, existing: set<string>) returns (out: Changes)
    ensures out == Decorated(r, ch, existing)
  {
    var creates := AddMarkers(r, ch.create, existing, false);
    var deletes := AddMarkers(r, ch.delete, existing, true);
    out := Changes(creates, ch.update, ch.updateOld, deletes);
  }

  lemma {:induction false} MarkerPlace(r: Owner, es: seq<Endpoint>, existing: set<string>, present: bool, e: Endpoint)
    returns (i: nat)
    requires e in es && (TxtName(r, e.Key()) in existing) == present
    ensures i < |Markers(r, es, existing, present)| && Markers(r, es, existing, present)[i] == Marker(r, e)
  {
    var last, init := es[|es| - 1], es[..|es| - 1];
    if e == last {
      i := |Markers(r, init, existing, present)|;
    } else {
      assert e in init;
      i := MarkerPlace(r, init, existing, present, e);
    }
  }

  lemma {:induction false} MarkerSource(r: Owner, es: seq<Endpoint>, existing: set<string>, present: bool, m: Endpoint)
    returns (e: Endpoint)
    requires m in Markers(r, es, existing, present)
    ensures e in es && m == Marker(r, e) && (TxtName(r, e.Key()) in existing) == present
  {
    var last, init := es[|es| - 1], es[..|es| - 1];
    if m in Markers(r, init, existing, present) {
      e := MarkerSource(r, init, existing, present, m);
    } else {
      e := last;
    }
  }

  lemma {:induction false} MarkersDistinct(r: Owner, es: seq<Endpoint>, existing: set<string>, present: bool)
    requires DistinctKeys(es)
    ensures DistinctKeys(Markers(r, es, existing, present))
  {
    if es != [] {
      var last, init := es[|es| - 1], es[..|es| - 1];
      MarkersDistinct(r, init, existing, present);
      var ms := Markers(r, init, existing, present);
      forall i | 0 <= i < |ms| ensures ms[i].Key() != Marker(r, last).Key() {
        var e := MarkerSource(r, init, existing, present, ms[i]);
        TxtNameInjective(r, e.Key(), last.Key());
      }
    }
  }

  lemma MarkersOf(r: Owner, es: seq<Endpoint>, existing: set<string>, present: bool)
    ensures forall e ::
      e in es && (TxtName(r, e.Key()) in existing) == present ==> Marker(r, e) in Markers(r, es, existing, present)
    ensures forall m :: m in Markers(r, es, existing, present) ==>
      exists e :: e in es && m == Marker(r, e) && (TxtName(r, e.Key()) in existing) == present
    ensures DistinctKeys(es) ==> DistinctKeys(Markers(r, es, existing, present))
  {
    forall e | e in es && (TxtName(r, e.Key()) in existing) == present
      ensures Marker(r, e) in Markers(r, es, existing, present)
    {
      var i := MarkerPlace(r, es, existing, present, e);
    }
    forall m | m in Markers(r, es, existing, present)
      ensures exists e :: e in es && m == Marker(r, e) && (TxtName(r, e.Key()) in existing) == present
    {
      var e := MarkerSource(r, es, existing, present, m);
    }
    if DistinctKeys(es) { MarkersDistinct(r, es, existing, present); }
  }

  lemma DistinctAppend(es: seq<Endpoint>, fs: seq<Endpoint>)
    requires DistinctKeys(es) && DistinctKeys(fs) && Disjoint(es, fs)
    ensures DistinctKeys(es + fs)
  {
    forall i, j | 0 <= i < j < |es + fs| ensures (es + fs)[i].Key() != (es + fs)[j].Key() {
      if i < |es| <= j {
        assert es[i] in es && fs[j - |es|] in fs;
      }
    }
  }

  ghost predicate NoMarkers(ch: Changes) {
    forall e :: e in ch.create || e in ch.update || e in ch.delete ==> e.rtype != TXT
  }

  /** Adding markers keeps a change set key-disjoint: marker names are injective. */
  lemma DecoratedIsKeyDisjoint(r: Owner, ch: Changes, existing: set<string>)
    requires KeyDisjoint(ch) && NoMarkers(ch)
    ensures KeyDisjoint(Decorated(r, ch, existing))
  {
    MarkersOf(r, ch.create, existing, false);
    MarkersOf(r, ch.delete, existing, true);
    var mc, md := Markers(r, ch.create, existing, false), Markers(r, ch.delete, existing, true);
    assert Disjoint(mc, md) by {
      forall m, n | m in mc && n in md ensures m.Key() != n.Key() {
        var e :| e in ch.create && m == Marker(r, e) && (TxtName(r, e.Key()) in existing) == false;
        var f :| f in ch.delete && n == Marker(r, f) && (TxtName(r, f.Key()) in existing) == true;
      }
    }
    DistinctAppend(ch.create, mc);
    DistinctAppend(ch.delete, md);
  }

  // ---- the same, over key-indexed records ------------------------------------

  ghost predicate Claims(r: Owner, m: map<Key, Endpoint>, t: Key, text: string) {
    t in m && t.rtype == TXT && Owns(r, m[t]) && RealKey(r, t.name) == Some(text)
  }

  ghost predicate Claimed(r: Owner, m: map<Key, Endpoint>, text: string) {
    exists t :: Claims(r, m, t, text)
  }

  ghost function OwnedMap(r: Owner, m: map<Key, Endpoint>): map<Key, Endpoint> {
    map k | k in m && k.rtype != TXT && Claimed(r, m, KeyText(k)) :: m[k]
  }

  ghost function ExistingIn(r: Owner, m: map<Key, Endpoint>): set<string> {
    set t | t in m && t.rtype == TXT && Owns(r, m[t]) :: t.name
  }

  lemma ClaimsAgree(r: Owner, all: seq<Endpoint>, text: string)
    requires DistinctKeys(all)
    ensures ClaimedIn(r, all, text) <==> Claimed(r, IndexOf(all), text)
  {
    var m := IndexOf(all);
    if ClaimedIn(r, all, text) {
      var i :| 0 <= i < |all| && all[i].rtype == TXT && Owns(r, all[i]) && RealKey(r, all[i].name) == Some(text);
      IndexOfDistinct(all, i);
      assert Claims(r, m, all[i].Key(), text);
    }
    if Claimed(r, m, text) {
      var t :| Claims(r, m, t, text);
      assert m[t] in all && m[t].Key() == t;
      var i :| 0 <= i < |all| && all[i] == m[t];
    }
  }

  lemma ExistingAgree(r: Owner, all: seq<Endpoint>)
    requires DistinctKeys(all)
    ensures Existing(r, all) == ExistingIn(r, IndexOf(all))
  {
    var m := IndexOf(all);
    forall e | e in all && e.rtype == TXT && Owns(r, e) ensures e.name in ExistingIn(r, m) {
      var i :| 0 <= i < |all| && all[i] == e;
      IndexOfDistinct(all, i);
      assert e.Key() in m;
    }
    forall t | t in m && t.rtype == TXT && Owns(r, m[t]) ensures t.name in Existing(r, all) {
      assert m[t] in all && m[t].Key() == t;
    }
  }

  lemma {:induction false} OwnedOfListed(r: Owner, all: seq<Endpoint>, es: seq<Endpoint>)
    ensures forall e :: e in OwnedOf(r, all, es) <==> e in es && e.rtype != TXT && ClaimedIn(r, all, KeyText(e.Key()))
    ensures DistinctKeys(es) ==> DistinctKeys(OwnedOf(r, all, es))
  {
    if es != [] {
      var init := es[..|es| - 1];
      assert es == init + [es[|es| - 1]];
      OwnedOfListed(r, all, init);
      var os := OwnedOf(r, all, init);
      if DistinctKeys(es) {
        forall i | 0 <= i < |os| ensures os[i].Key() != es[|es| - 1].Key() {
          assert os[i] in os;
          var j :| 0 <= j < |init| && init[j] == os[i];
        }
      }
    }
  }

  /** `Records` yields exactly the claimed records, once each. */
  lemma RecordsAreOwned(r: Owner, all: seq<Endpoint>)
    requires DistinctKeys(all)
    ensures DistinctKeys(OwnedOf(r, all, all)) && IndexOf(OwnedOf(r, all, all)) == OwnedMap(r, IndexOf(all))
  {
    OwnedOfListed(r, all, all);
    var os, m := OwnedOf(r, all, all), IndexOf(all);
    forall e | e in all ensures e.Key() in m && m[e.Key()] == e {
      var i :| 0 <= i < |all| && all[i] == e;
      IndexOfDistinct(all, i);
    }
    forall text ensures ClaimedIn(r, all, text) == Claimed(r, m, text) {
      ClaimsAgree(r, all, text);
    }
    assert Lists(os, OwnedMap(r, m));
    ListsIndex(os, OwnedMap(r, m));
  }
}
