/** The unit of desired and observed DNS state (internal/endpoint). */
module Endpoints {
  import opened GoText

  /** The record types the program manages. */
  datatype RecordType = A | AAAA | CNAME | TXT

  function TypeText(t: RecordType): string {
    match t
    case A => "A"
    case AAAA => "AAAA"
    case CNAME => "CNAME"
    case TXT => "TXT"
  }

  /** `Endpoint.Key()` pairs a type and a name; `KeyText` is the string the
      program builds from it, and `KeyTextInjective` lets the model keep the pair. */
  datatype Key = RecordKey(rtype: RecordType, name: string)

  function KeyText(k: Key): string {
    TypeText(k.rtype) + "/" + k.name
  }

  lemma KeyTextInjective(k: Key, l: Key)
    ensures KeyText(k) == KeyText(l) <==> k == l
  {
    if KeyText(k) == KeyText(l) {
      var n, m := |TypeText(k.rtype)|, |TypeText(l.rtype)|;
      assert forall i :: 0 <= i < n ==> KeyText(k)[i] == TypeText(k.rtype)[i] != '/';
      assert forall i :: 0 <= i < m ==> KeyText(l)[i] == TypeText(l.rtype)[i] != '/';
      assert KeyText(k)[n] == '/' && KeyText(l)[m] == '/';
      assert KeyText(k)[..n] == TypeText(k.rtype) && KeyText(l)[..m] == TypeText(l.rtype);
      assert k.name == KeyText(k)[n + 1..] && l.name == KeyText(l)[m + 1..];
    }
  }

  type Labels = map<string, string>

  datatype Endpoint = Endpoint(name: string, targets: seq<string>, rtype: RecordType, ttl: int, labels: Labels) {
    function Key(): Key {
      RecordKey(rtype, name)
    }
  }

  /** What `net.ParseIP` says about a target; the classifier itself stays a parameter. */
  datatype IPKind = NotIP | IPv4 | IPv6

  function InferType(targets: seq<string>, parseIP: string -> IPKind): RecordType {
    if targets == [] then CNAME
    else match parseIP(targets[0])
      case NotIP => CNAME
      case IPv4 => A
      case IPv6 => AAAA
  }

  /** `endpoint.New` with an empty record type. */
  function NewInferred(name: string, targets: seq<string>, ttl: int, parseIP: string -> IPKind): Endpoint {
    Endpoint(name, targets, InferType(targets, parseIP), ttl, map[])
  }

  /** No two endpoints share a key. */
  ghost predicate DistinctKeys(es: seq<Endpoint>) {
    forall i, j :: 0 <= i < j < |es| ==> es[i].Key() != es[j].Key()
  }

  ghost predicate Keyed(m: map<Key, Endpoint>) {
    forall k :: k in m ==> m[k].Key() == k
  }

  /** The map a slice denotes when a later endpoint replaces an earlier one with the same key. */
  function IndexOf(es: seq<Endpoint>): (m: map<Key, Endpoint>)
    ensures Keyed(m)
    ensures forall k :: k in m ==> m[k] in es
    ensures forall i :: 0 <= i < |es| ==> es[i].Key() in m
  {
    if es == [] then map[] else
      var last := es[|es| - 1];
      assert es == es[..|es| - 1] + [last];
      IndexOf(es[..|es| - 1])[last.Key() := last]
  }

  lemma {:induction false} IndexOfDistinct(es: seq<Endpoint>, i: int)
    requires DistinctKeys(es) && 0 <= i < |es|
    ensures es[i].Key() in IndexOf(es) && IndexOf(es)[es[i].Key()] == es[i]
  {
    if i < |es| - 1 {
      IndexOfDistinct(es[..|es| - 1], i);
    }
  }

  /** `es` lists the entries of `m`, each once, in some order. */
  ghost predicate Lists(es: seq<Endpoint>, m: map<Key, Endpoint>) {
    && DistinctKeys(es)
    && (forall e :: e in es ==> e.Key() in m && m[e.Key()] == e)
    && (forall k :: k in m ==> m[k] in es)
  }

  lemma ListsExtend(es: seq<Endpoint>, m: map<Key, Endpoint>, e: Endpoint)
    requires Lists(es, m) && e.Key() !in m
    ensures Lists(es + [e], m[e.Key() := e])
  {
    var es' := es + [e];
    forall i | 0 <= i < |es| ensures es[i].Key() != e.Key() {
      assert es[i] in es;
    }
    var m' := m[e.Key() := e];
    forall k | k in m' ensures m'[k] in es' {
      if k != e.Key() { assert m[k] in es; }
    }
  }

  lemma ListsIndex(es: seq<Endpoint>, m: map<Key, Endpoint>)
    requires Lists(es, m) && Keyed(m)
    ensures IndexOf(es) == m
  {
    forall k | k in m ensures k in IndexOf(es) && IndexOf(es)[k] == m[k] {
      var i :| 0 <= i < |es| && es[i] == m[k];
      IndexOfDistinct(es, i);
    }
  }

  // ---- merging records into endpoints, as both providers do when they read ----

  /** `order` lists the keys of `byKey`, each once. */
  ghost predicate InOrder(byKey: map<Key, Endpoint>, order: seq<Key>) {
    && (forall k :: k in order <==> k in byKey)
    && (forall a, b :: 0 <= a < b < |order| ==> order[a] != order[b])
  }

  lemma InOrderExtend(byKey: map<Key, Endpoint>, order: seq<Key>, k: Key, e: Endpoint)
    requires InOrder(byKey, order) && k !in byKey
    ensures InOrder(byKey[k := e], order + [k])
  {
    forall a | 0 <= a < |order| ensures order[a] != k {
      assert order[a] in order;
    }
  }

  /** The last loop of the providers' `Records`: the merged endpoints in first-seen order. */
  method Collect(byKey: map<Key, Endpoint>, order: seq<Key>) returns (out: seq<Endpoint>)
    requires Keyed(byKey) && InOrder(byKey, order)
    ensures DistinctKeys(out) && IndexOf(out) == byKey
    ensures |out| == |order| && forall j :: 0 <= j < |out| ==> out[j].Key() == order[j]
  {
    out := [];
    for i := 0 to |order|
      invariant |out| == i
      invariant forall j :: 0 <= j < i ==> out[j] == byKey[order[j]]
    {
      assert order[i] in order;
      out := out + [byKey[order[i]]];
    }
    Collected(byKey, order, out);
    ListsIndex(out, byKey);
  }

  lemma Collected(byKey: map<Key, Endpoint>, order: seq<Key>, out: seq<Endpoint>)
    requires Keyed(byKey) && InOrder(byKey, order) && |out| == |order|
    requires forall j :: 0 <= j < |order| ==> order[j] in byKey && out[j] == byKey[order[j]]
    ensures Lists(out, byKey)
  {
    forall k | k in byKey ensures byKey[k] in out {
      var j :| 0 <= j < |order| && order[j] == k;
      assert out[j] == byKey[k];
    }
  }
}
