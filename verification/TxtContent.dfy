/** TXT content on its way to Cloudflare and back: quoting, unquoting, and the
    quoted chunks long values come back in (internal/provider/cloudflare.go). */
module TxtContent {
  import opened GoText

  const DQ: char := '"'
  const BS: char := '\\'

  predicate Printable(s: string) {
    forall c :: c in s ==> ' ' <= c <= '~'
  }

  /** Neither quotes nor backslashes. */
  predicate Clean(s: string) {
    DQ !in s && BS !in s
  }

  // ---- Go's strconv, on printable text with the escapes for quote and backslash ----

  function Escape(s: string): string {
    if s == "" then ""
    else (if s[0] == DQ || s[0] == BS then [BS, s[0]] else [s[0]]) + Escape(s[1..])
  }

  function Quote(s: string): string {
    [DQ] + Escape(s) + [DQ]
  }

  function Unescape(s: string): Option<string>
    decreases |s|
  {
    if s == "" then Some("")
    else if s[0] == DQ then None
    else if s[0] != BS then
      var rest := Unescape(s[1..]);
      if rest.None? then None else Some([s[0]] + rest.value)
    else if |s| > 1 && (s[1] == DQ || s[1] == BS) then
      var rest := Unescape(s[2..]);
      if rest.None? then None else Some([s[1]] + rest.value)
    else None
  }

  function Unquote(s: string): Option<string> {
    if |s| < 2 || s[0] != DQ || s[|s| - 1] != DQ then None else Unescape(s[1..|s| - 1])
  }

  // ---- the provider's functions --------------------------------------------------------

  predicate Wrapped(s: string) {
    |s| >= 2 && s[0] == DQ && s[|s| - 1] == DQ
  }

  /** `quoteTXT` on a TXT record. */
  function QuoteTxt(s: string): string {
    if Wrapped(s) then s else Quote(s)
  }

  predicate SepAt(s: string) {
    |s| >= 3 && s[0] == DQ && s[1] == ' ' && s[2] == DQ
  }

  /** The first occurrence of a quote, a space and a quote, or -1. */
  function FindSep(s: string): (i: int)
    ensures -1 <= i <= |s| - 3 || i == -1
  {
    if |s| < 3 then -1
    else if SepAt(s) then 0
    else
      var rest := FindSep(s[1..]);
      if rest < 0 then -1 else rest + 1
  }

  /** `strings.Split` at that separator. */
  function Split(s: string): seq<string>
    decreases |s|
  {
    var i := FindSep(s);
    if i < 0 then [s] else [s[..i]] + Split(s[i + 3..])
  }

  function TrimQuotes(s: string): string {
    if s == "" then ""
    else if s[0] == DQ then TrimQuotes(s[1..])
    else if s[|s| - 1] == DQ then TrimQuotes(s[..|s| - 1])
    else s
  }

  /** The loop body of `unquoteTXT`: restore the quotes the split removed, then unquote. */
  function UnquoteChunk(piece: string): string {
    var d := Restored(piece);
    var v := Unquote(d);
    if v.Some? then v.value else TrimQuotes(d)
  }

  function Restored(piece: string): string {
    var c := if HasPrefix(piece, [DQ]) then piece else [DQ] + piece;
    if HasSuffix(c, [DQ]) then c else c + [DQ]
  }

  function Concat(cs: seq<string>): string {
    if cs == [] then "" else cs[0] + Concat(cs[1..])
  }

  function UnquoteEach(pieces: seq<string>): (r: seq<string>)
    ensures |r| == |pieces|
  {
    seq(|pieces|, i requires 0 <= i < |pieces| => UnquoteChunk(pieces[i]))
  }

  /** The chunk path of `unquoteTXT`. */
  function Rejoined(s: string): string {
    Concat(UnquoteEach(Split(s)))
  }

  function UnquotedTxt(s: string): string {
    if !HasPrefix(s, [DQ]) then s
    else
      var v := Unquote(s);
      if v.Some? then v.value else Rejoined(s)
  }

  lemma {:induction false} ConcatAppend(a: seq<string>, b: seq<string>)
    ensures Concat(a + b) == Concat(a) + Concat(b)
  {
    if a == [] {
      assert a + b == b;
    } else {
      ConcatAppend(a[1..], b);
      assert (a + b)[1..] == a[1..] + b;
      Associative(a[0], Concat(a[1..]), Concat(b));
    }
  }

  lemma Associative(u: string, v: string, w: string)
    ensures (u + v) + w == u + (v + w)
  {
  }

  lemma ConcatOne(c: string)
    ensures Concat([c]) == c
  {
    assert [c][1..] == [];
  }

  /** `unquoteTXT`. */
  method UnquoteTxt(s: string) returns (v: string)
    ensures v == UnquotedTxt(s)
  {
    if !HasPrefix(s, [DQ]) {
      return s;
    }
    var whole := Unquote(s);
    if whole.Some? {
      return whole.value;
    }
    v := UnquoteChunks(Split(s));
  }

  lemma ConcatNext(cs: seq<string>, i: nat)
    requires i < |cs|
    ensures Concat(cs[..i + 1]) == Concat(cs[..i]) + cs[i]
  {
    assert cs[..i + 1] == cs[..i] + [cs[i]];
    ConcatAppend(cs[..i], [cs[i]]);
    ConcatOne(cs[i]);
  }

  /** The loop over the chunks. */
  method UnquoteChunks(chunks: seq<string>) returns (v: string)
    ensures v == Concat(UnquoteEach(chunks))
  {
    v := "";
    ghost var each := UnquoteEach(chunks);
    for i := 0 to |chunks|
      invariant v == Concat(each[..i])
    {
      ConcatNext(each, i);
      v := v + UnquoteChunk(chunks[i]);
    }
    assert each[..|chunks|] == each;
  }

  // ---- writing and reading back -----------------------------------------------------------

  lemma {:induction false} UnescapeEscape(s: string)
    ensures Unescape(Escape(s)) == Some(s)
  {
    if s != "" {
      UnescapeEscape(s[1..]);
      var e := Escape(s);
      if s[0] == DQ || s[0] == BS {
        assert e[2..] == Escape(s[1..]);
      } else {
        assert e[1..] == Escape(s[1..]);
      }
      assert s == [s[0]] + s[1..];
    }
  }

  lemma {:induction false} UnescapeLength(s: string)
    ensures Unescape(s).Some? ==> |Unescape(s).value| <= |s|
    decreases |s|
  {
    if s != "" {
      UnescapeLength(s[1..]);
      if |s| > 1 { UnescapeLength(s[2..]); }
    }
  }

  lemma {:induction false} TrimQuotesLength(s: string)
    ensures |TrimQuotes(s)| <= |s|
    ensures s != "" && s[0] == DQ ==> |TrimQuotes(s)| < |s|
    ensures Wrapped(s) ==> |TrimQuotes(s)| <= |s| - 2
    ensures TrimQuotes(s) != "" ==> TrimQuotes(s)[0] != DQ
    decreases |s|
  {
    if s != "" {
      if s[0] == DQ {
        TrimQuotesLength(s[1..]);
        if |s| >= 2 && s[|s| - 1] == DQ {
          assert s[1..][|s[1..]| - 1] == DQ;
          TrimLast(s[1..]);
        }
      } else if s[|s| - 1] == DQ {
        TrimQuotesLength(s[..|s| - 1]);
      }
    }
  }

  lemma {:induction false} TrimLast(s: string)
    requires s != "" && s[|s| - 1] == DQ
    ensures |TrimQuotes(s)| < |s|
    decreases |s|
  {
    if s[0] == DQ {
      if |s| > 1 { assert s[1..][|s| - 2] == DQ; TrimLast(s[1..]); }
    } else {
      TrimShrinks(s[..|s| - 1]);
    }
  }

  lemma {:induction false} TrimShrinks(s: string)
    ensures |TrimQuotes(s)| <= |s|
    decreases |s|
  {
    if s != "" {
      if s[0] == DQ { TrimShrinks(s[1..]); }
      else if s[|s| - 1] == DQ { TrimShrinks(s[..|s| - 1]); }
    }
  }

  /** Restoring and removing quotes never lengthens a piece, and shortens one that starts with a quote. */
  lemma ChunkLength(p: string)
    ensures |UnquoteChunk(p)| <= |p|
    ensures HasPrefix(p, [DQ]) ==> |UnquoteChunk(p)| < |p|
    ensures Wrapped(p) ==> |UnquoteChunk(p)| <= |p| - 2
  {
    var d := Restored(p);
    RestoredShape(p);
    TrimQuotesLength(d);
    if |d| >= 2 { UnescapeLength(d[1..|d| - 1]); }
  }

  lemma StartsWithQuote(s: string)
    ensures HasPrefix(s, [DQ]) <==> s != "" && s[0] == DQ
  {
    if s != "" { assert s[..1] == [s[0]]; }
  }

  lemma EndsWithQuote(s: string)
    ensures HasSuffix(s, [DQ]) <==> s != "" && s[|s| - 1] == DQ
  {
    if s != "" { assert s[|s| - 1..] == [s[|s| - 1]]; }
  }

  lemma RestoredShape(p: string)
    ensures var d := Restored(p);
      && d != "" && d[0] == DQ && d[|d| - 1] == DQ && |d| <= |p| + 2
      && (HasPrefix(p, [DQ]) ==> |d| <= |p| + 1) && (Wrapped(p) ==> d == p)
  {
    var c := if HasPrefix(p, [DQ]) then p else [DQ] + p;
    StartsWithQuote(p);
    EndsWithQuote(c);
  }

  function TotalLength(cs: seq<string>): nat {
    if cs == [] then 0 else |cs[0]| + TotalLength(cs[1..])
  }

  lemma {:induction false} ConcatLength(cs: seq<string>)
    ensures |Concat(cs)| == TotalLength(cs)
  {
    if cs != [] { ConcatLength(cs[1..]); }
  }

  lemma {:induction false} TotalBelow(a: seq<string>, b: seq<string>)
    requires |a| == |b| && forall i :: 0 <= i < |a| ==> |a[i]| <= |b[i]|
    ensures TotalLength(a) <= TotalLength(b)
    ensures a != [] && |a[0]| < |b[0]| ==> TotalLength(a) < TotalLength(b)
  {
    if a != [] { TotalBelow(a[1..], b[1..]); }
  }

  lemma {:induction false} SplitTotal(s: string)
    ensures TotalLength(Split(s)) <= |s| && Split(s) != []
    ensures |s| > 0 && s[0] == DQ && FindSep(s) != 0 ==> Split(s)[0] != "" && Split(s)[0][0] == DQ
    ensures FindSep(s) >= 0 ==> TotalLength(Split(s)) <= |s| - 3
    decreases |s|
  {
    var i := FindSep(s);
    if i >= 0 {
      SplitTotal(s[i + 3..]);
      var pieces := [s[..i]] + Split(s[i + 3..]);
      assert pieces[1..] == Split(s[i + 3..]);
    } else {
      var pieces := [s];
      assert pieces[1..] == [];
    }
  }

  lemma WrappedShrinks(s: string)
    requires Wrapped(s)
    ensures |UnquotedTxt(s)| < |s|
  {
    assert HasPrefix(s, [DQ]);
    UnescapeLength(s[1..|s| - 1]);
    var pieces := Split(s);
    SplitTotal(s);
    forall i | 0 <= i < |pieces| ensures |UnquoteEach(pieces)[i]| <= |pieces[i]| {
      ChunkLength(pieces[i]);
    }
    ChunkLength(pieces[0]);
    ConcatLength(UnquoteEach(pieces));
    TotalBelow(UnquoteEach(pieces), pieces);
  }

  /** Reading back what was written gives the value exactly when the value was not already in quotes. */
  lemma RoundTripExact(s: string)
    requires Printable(s)
    ensures UnquotedTxt(QuoteTxt(s)) == s <==> !Wrapped(s)
  {
    if Wrapped(s) {
      WrappedShrinks(s);
    } else {
      UnescapeEscape(s);
      var q := Quote(s);
      assert q[1..|q| - 1] == Escape(s);
      assert HasPrefix(q, [DQ]);
    }
  }

  /** Content that is not quoted comes back as it is. */
  lemma UnquotedUnchanged(s: string)
    requires s == "" || s[0] != '"'
    ensures UnquotedTxt(s) == s
  {
    StartsWithQuote(s);
  }

  /** Only a value that begins and ends with a quote, and not the same one, is written as it is; any other gets
      quotes around it. */
  lemma WhenQuoted(s: string)
    ensures |s| >= 2 && s[0] == '"' && s[|s| - 1] == '"' ==> QuoteTxt(s) == s
    ensures !(|s| >= 2 && s[0] == '"' && s[|s| - 1] == '"') ==>
      var q := QuoteTxt(s); |q| >= |s| + 2 && q[0] == '"' && q[|q| - 1] == '"'
  {
    EscapeLengthens(s);
  }

  lemma {:induction false} EscapeLengthens(s: string)
    ensures |Escape(s)| >= |s|
  {
    if s != "" { EscapeLengthens(s[1..]); }
  }

  /** A value without quotes and backslashes is written between two quotes, as it is. */
  lemma {:induction false} QuotedAsIs(s: string)
    requires '"' !in s && '\\' !in s
    ensures QuoteTxt(s) == "\"" + s + "\""
  {
    EscapesNothing(s);
    assert s != "" ==> s[0] in s;
    assert Quote(s) == [DQ] + s + [DQ] && [DQ] == "\"";
  }

  lemma {:induction false} EscapesNothing(s: string)
    requires '"' !in s && '\\' !in s
    ensures Escape(s) == s
  {
    if s != "" {
      assert s == [s[0]] + s[1..] && s[0] in s;
      EscapesNothing(s[1..]);
    }
  }

  // ---- values that come back in several quoted chunks ---------------------------------------

  /** The chunk list from after an opening quote to the end. */
  function Tail(cs: seq<string>): string
    requires cs != []
  {
    cs[0] + [DQ] + if |cs| == 1 then "" else [' ', DQ] + Tail(cs[1..])
  }

  /** Adjacent quoted strings, one space apart. */
  function Chunked(cs: seq<string>): string
    requires cs != []
  {
    [DQ] + Tail(cs)
  }

  predicate AllClean(cs: seq<string>) {
    forall c :: c in cs ==> Clean(c)
  }

  /** Spaces that are whole chunks, and then an empty chunk: after a first chunk of one
      space has misled the split, this brings it back in step. */
  predicate Realigns(cs: seq<string>) {
    cs != [] && (cs[0] == "" || (cs[0] == " " && Realigns(cs[1..])))
  }

  lemma {:induction false} FindSepSkips(p: string, rest: string)
    requires DQ !in p
    ensures FindSep(p + rest) == if FindSep(rest) < 0 then -1 else |p| + FindSep(rest)
  {
    if p == "" {
      assert p + rest == rest;
    } else {
      FindSepSkips(p[1..], rest);
      assert (p + rest)[1..] == p[1..] + rest;
      assert (p + rest)[0] == p[0] != DQ;
      if |p + rest| < 3 { assert |rest| < 3; }
    }
  }

  lemma {:induction false} UnescapeClean(s: string)
    requires Clean(s)
    ensures Unescape(s) == Some(s)
  {
    if s != "" {
      UnescapeClean(s[1..]);
      assert s == [s[0]] + s[1..];
    }
  }

  lemma {:induction false} UnescapeStopsAtQuote(p: string, rest: string)
    requires Clean(p)
    ensures Unescape(p + [DQ] + rest) == None
  {
    var s := p + [DQ] + rest;
    if p != "" {
      UnescapeStopsAtQuote(p[1..], rest);
      assert s[1..] == p[1..] + [DQ] + rest;
      assert s[0] == p[0];
    }
  }

  lemma ChunkBack(c: string)
    requires Clean(c)
    ensures UnquoteChunk(c) == c && UnquoteChunk([DQ] + c) == c && UnquoteChunk(c + [DQ]) == c
  {
    var q := [DQ] + c + [DQ];
    assert q[1..|q| - 1] == c;
    UnescapeClean(c);
    if c != "" {
      assert c[0] in c && c[|c| - 1] in c;
      assert !HasPrefix(c, [DQ]) && !HasSuffix([DQ] + c, [DQ]) && !HasPrefix(c + [DQ], [DQ]);
      assert HasSuffix([DQ] + (c + [DQ]), [DQ]);
      assert [DQ] + (c + [DQ]) == q;
    } else {
      assert TrimQuotes([DQ]) == "";
      assert [DQ] + c == [DQ] && c + [DQ] == [DQ];
    }
  }

  /** A piece with a stray quote inside comes out with that quote. */
  lemma StrayQuote(c: string)
    requires Clean(c) && c != ""
    ensures DQ in UnquoteChunk([' ', DQ] + c) && DQ in UnquoteChunk([' ', DQ] + c + [DQ])
  {
    var body := [' ', DQ] + c;
    assert c[|c| - 1] in c;
    StartsWithQuote(body);
    EndsWithQuote([DQ] + body);
    StrayQuoteLeft(c);
    StartsWithQuote(body + [DQ]);
    EndsWithQuote([DQ] + (body + [DQ]));
    assert [DQ] + (body + [DQ]) == [DQ] + body + [DQ];
  }

  lemma StrayQuoteLeft(c: string)
    requires Clean(c) && c != ""
    ensures var d := [DQ] + ([' ', DQ] + c) + [DQ]; Unquote(d) == None && DQ in TrimQuotes(d)
  {
    var body := [' ', DQ] + c;
    var d := [DQ] + body + [DQ];
    assert d[1..|d| - 1] == " " + [DQ] + c;
    UnescapeStopsAtQuote(" ", c);
    assert c[|c| - 1] in c;
    TrimAround(body);
    assert body[1] == DQ;
  }

  lemma TrimAround(body: string)
    requires body != "" && body[0] != DQ && body[|body| - 1] != DQ
    ensures TrimQuotes([DQ] + body + [DQ]) == body
  {
    var d, e := [DQ] + body + [DQ], body + [DQ];
    assert d[1..] == e && d[0] == DQ;
    assert TrimQuotes(d) == TrimQuotes(e);
    assert e[..|e| - 1] == body && e[0] == body[0] && e[|e| - 1] == DQ;
    assert TrimQuotes(e) == TrimQuotes(body);
  }

  /** An opening quote and a chunk other than a single space do not look like a separator. */
  lemma QuoteIsNoSep(s: string, c: string)
    requires Clean(c) && c != " " && |s| > 1 + |c|
    requires s[0] == DQ && s[1..1 + |c|] == c && s[1 + |c|] == DQ
    ensures !SepAt(s)
  {
    if |c| == 1 {
      assert s[1] == c[0] && c == [c[0]];
    } else if |c| > 1 {
      assert s[2] == c[1] && c[1] in c;
    }
  }

  lemma FindSepNext(s: string)
    requires s != "" && !SepAt(s)
    ensures FindSep(s) == if FindSep(s[1..]) < 0 then -1 else FindSep(s[1..]) + 1
  {
    if |s| < 3 { assert |s[1..]| < 3; }
  }

  lemma QuoteShape(c: string, rest: string)
    requires rest != "" && rest[0] == DQ
    ensures var s := [DQ] + c + rest; |s| > 1 + |c| && s[0] == DQ && s[1..1 + |c|] == c && s[1 + |c|] == DQ
    ensures ([DQ] + c + rest)[1..] == c + rest
  {
  }

  /** After an opening quote, a chunk other than a single space is skipped like plain text. */
  lemma QuoteSkips(c: string, rest: string)
    requires Clean(c) && c != " " && rest != "" && rest[0] == DQ
    ensures FindSep([DQ] + c + rest) == if FindSep(rest) < 0 then -1 else 1 + |c| + FindSep(rest)
  {
    QuoteShape(c, rest);
    QuoteIsNoSep([DQ] + c + rest, c);
    FindSepNext([DQ] + c + rest);
    FindSepSkips(c, rest);
  }

  function Sep(): string {
    [DQ, ' ', DQ]
  }

  lemma SepIsFound(rest: string)
    ensures FindSep(Sep() + rest) == 0
  {
    assert SepAt(Sep() + rest);
  }

  lemma SepForm(c: string, t: string)
    ensures c + [DQ] + ([' ', DQ] + t) == c + Sep() + t
  {
  }

  lemma TailForm(cs: seq<string>)
    requires cs != []
    ensures |cs| == 1 ==> Tail(cs) == cs[0] + [DQ]
    ensures |cs| > 1 ==> Tail(cs) == cs[0] + Sep() + Tail(cs[1..])
  {
    if |cs| > 1 {
      SepForm(cs[0], Tail(cs[1..]));
    }
  }

  lemma ConcatForm(cs: seq<string>)
    requires cs != []
    ensures Concat(cs) == if |cs| == 1 then cs[0] else cs[0] + Concat(cs[1..])
  {
    if |cs| == 1 {
      ConcatOne(cs[0]);
      assert cs == [cs[0]];
    }
  }

  /** What the split makes of chunks it is in step with. */
  function Pieces(cs: seq<string>): seq<string>
    requires cs != []
  {
    if |cs| == 1 then [cs[0] + [DQ]] else [cs[0]] + Pieces(cs[1..])
  }

  /** What it makes of them one space late. */
  function LatePieces(cs: seq<string>): seq<string>
    requires cs != []
    decreases |cs|
  {
    if cs[0] == " " then [" "] + (if |cs| == 1 then [""] else LatePieces(cs[1..]))
    else if |cs| == 1 then [[' ', DQ] + cs[0] + [DQ]]
    else [[' ', DQ] + cs[0]] + Pieces(cs[1..])
  }

  lemma SplitStep(s: string, p: string, rest: string)
    requires s == p + (Sep() + rest) && FindSep(s) == |p|
    ensures Split(s) == [p] + Split(rest)
  {
    assert s[..|p|] == p && s[|p| + 3..] == rest;
  }

  lemma {:induction false} SplitInStep(cs: seq<string>)
    requires cs != [] && AllClean(cs)
    ensures Split(Tail(cs)) == Pieces(cs)
  {
    TailForm(cs);
    assert cs[0] in cs;
    if |cs| == 1 {
      FindSepSkips(cs[0], [DQ]);
    } else {
      var rest := Tail(cs[1..]);
      SepIsFound(rest);
      Associative(cs[0], Sep(), rest);
      FindSepSkips(cs[0], Sep() + rest);
      SplitStep(Tail(cs), cs[0], rest);
      SplitInStep(cs[1..]);
    }
  }

  lemma LateSpace(rest: string)
    ensures Split([' ', DQ, ' ', DQ] + rest) == [" "] + Split(rest)
  {
    var s := [' ', DQ, ' ', DQ] + rest;
    assert s == " " + (Sep() + rest);
    SepIsFound(rest);
    FindSepSkips(" ", Sep() + rest);
    SplitStep(s, " ", rest);
  }

  lemma LateOther(c: string, rest: string)
    requires Clean(c) && c != " "
    ensures Split([' ', DQ] + c + Sep() + rest) == [[' ', DQ] + c] + Split(rest)
    ensures Split([' ', DQ] + c + [DQ]) == [[' ', DQ] + c + [DQ]]
  {
    var more := Sep() + rest;
    SepIsFound(rest);
    QuoteSkips(c, more);
    QuoteSkips(c, [DQ]);
    FindSepSkips(" ", [DQ] + c + more);
    FindSepSkips(" ", [DQ] + c + [DQ]);
    var s := [' ', DQ] + c + more;
    assert s == " " + ([DQ] + c + more);
    assert [' ', DQ] + c + [DQ] == " " + ([DQ] + c + [DQ]);
    SplitStep(s, [' ', DQ] + c, rest);
    Associative([' ', DQ] + c, Sep(), rest);
  }

  lemma {:induction false} SplitLate(cs: seq<string>)
    requires cs != [] && AllClean(cs)
    ensures Split([' ', DQ] + Tail(cs)) == LatePieces(cs)
    decreases |cs|
  {
    TailForm(cs);
    var m := [' ', DQ] + Tail(cs);
    if cs[0] == " " {
      var rest := if |cs| == 1 then "" else [' ', DQ] + Tail(cs[1..]);
      assert m == [' ', DQ, ' ', DQ] + rest;
      LateSpace(rest);
      if |cs| > 1 { SplitLate(cs[1..]); }
    } else if |cs| == 1 {
      LateOther(cs[0], "");
      Associative([' ', DQ], cs[0], [DQ]);
    } else {
      LateOther(cs[0], Tail(cs[1..]));
      SplitInStep(cs[1..]);
      assert m == [' ', DQ] + cs[0] + Sep() + Tail(cs[1..]);
    }
  }

  lemma EachStep(p: string, rest: seq<string>)
    ensures Concat(UnquoteEach([p] + rest)) == UnquoteChunk(p) + Concat(UnquoteEach(rest))
  {
    assert UnquoteEach([p] + rest)[1..] == UnquoteEach(rest);
  }

  lemma {:induction false} PiecesBack(cs: seq<string>)
    requires cs != [] && AllClean(cs)
    ensures Concat(UnquoteEach(Pieces(cs))) == Concat(cs)
  {
    ChunkBack(cs[0]);
    ConcatForm(cs);
    if |cs| == 1 {
      EachStep(cs[0] + [DQ], []);
    } else {
      EachStep(cs[0], Pieces(cs[1..]));
      PiecesBack(cs[1..]);
    }
  }

  lemma SpaceThenEmpty()
    ensures UnquoteChunk([' ', DQ, DQ]) == " "
  {
    var m := [' ', DQ, DQ];
    var d := [DQ] + m;
    assert d[1..|d| - 1] == " " + [DQ] + "";
    UnescapeStopsAtQuote(" ", "");
    assert !HasPrefix(m, [DQ]) && HasSuffix(d, [DQ]);
    assert d[1..] == m && m[..2] == [' ', DQ] && [' ', DQ][..1] == " ";
    assert TrimQuotes(" ") == " ";
    assert TrimQuotes([' ', DQ]) == " ";
    assert TrimQuotes(m) == " ";
    assert TrimQuotes(d) == " ";
  }

  /** Out of step by one space: the value survives exactly when the chunks realign. */
  lemma {:induction false} LateBack(cs: seq<string>)
    requires cs != [] && AllClean(cs)
    ensures Concat(UnquoteEach(LatePieces(cs))) == " " + Concat(cs) <==> Realigns(cs)
    decreases |cs|
  {
    ConcatForm(cs);
    if cs[0] == " " {
      LateBackSpace(cs);
    } else if cs[0] == "" {
      LateBackEmpty(cs);
    } else {
      LateBackOther(cs);
    }
  }

  lemma {:induction false} LateBackSpace(cs: seq<string>)
    requires cs != [] && AllClean(cs) && cs[0] == " "
    ensures Concat(UnquoteEach(LatePieces(cs))) == " " + Concat(cs) <==> Realigns(cs)
    decreases |cs|, 0
  {
    if |cs| == 1 {
      LateLastSpace(cs);
    } else {
      LateBack(cs[1..]);
      LateStepSpace(cs);
    }
  }

  lemma LateLastSpace(cs: seq<string>)
    requires |cs| == 1 && cs[0] == " "
    ensures Concat(UnquoteEach(LatePieces(cs))) != " " + Concat(cs)
  {
    ChunkBack(" ");
    ChunkBack("");
    ConcatForm(cs);
    EachStep(" ", [""]);
    EachStep("", []);
    assert |" " + Concat(cs)| == 2;
  }

  lemma SpaceBefore(u: string, v: string)
    ensures " " + u == " " + v <==> u == v
  {
    assert (" " + u)[1..] == u && (" " + v)[1..] == v;
  }

  lemma LateStepSpace(cs: seq<string>)
    requires |cs| > 1 && cs[0] == " "
    ensures Concat(UnquoteEach(LatePieces(cs))) == " " + Concat(cs) <==>
      Concat(UnquoteEach(LatePieces(cs[1..]))) == " " + Concat(cs[1..])
  {
    ChunkBack(" ");
    ConcatForm(cs);
    EachStep(" ", LatePieces(cs[1..]));
    SpaceBefore(Concat(UnquoteEach(LatePieces(cs[1..]))), " " + Concat(cs[1..]));
  }

  lemma LateBackEmpty(cs: seq<string>)
    requires cs != [] && AllClean(cs) && cs[0] == ""
    ensures Concat(UnquoteEach(LatePieces(cs))) == " " + Concat(cs)
  {
    ConcatForm(cs);
    if |cs| == 1 {
      SpaceThenEmpty();
      EachStep([' ', DQ, DQ], []);
      LatePiecesEmpty(cs);
    } else {
      LateBackEmptyMore(cs);
    }
  }

  lemma LatePiecesEmpty(cs: seq<string>)
    requires cs != [] && cs[0] == ""
    ensures LatePieces(cs) == if |cs| == 1 then [[' ', DQ, DQ]] + [] else [" " + [DQ]] + Pieces(cs[1..])
  {
    assert " " + [DQ] == [' ', DQ] + "";
    assert [' ', DQ] + "" + [DQ] == [' ', DQ, DQ];
  }

  lemma LateBackEmptyMore(cs: seq<string>)
    requires |cs| > 1 && AllClean(cs) && cs[0] == ""
    ensures Concat(UnquoteEach(LatePieces(cs))) == " " + Concat(cs[1..])
  {
    LatePiecesEmpty(cs);
    ChunkBack(" ");
    EachStep(" " + [DQ], Pieces(cs[1..]));
    PiecesBack(cs[1..]);
  }

  lemma LateBackOther(cs: seq<string>)
    requires cs != [] && AllClean(cs) && cs[0] != "" && cs[0] != " "
    ensures Concat(UnquoteEach(LatePieces(cs))) != " " + Concat(cs)
  {
    StrayQuote(cs[0]);
    ConcatClean(cs);
    assert DQ !in " " + Concat(cs);
    if |cs| == 1 {
      EachStep([' ', DQ] + cs[0] + [DQ], []);
    } else {
      EachStep([' ', DQ] + cs[0], Pieces(cs[1..]));
    }
  }

  lemma {:induction false} ConcatClean(cs: seq<string>)
    requires AllClean(cs)
    ensures DQ !in Concat(cs)
  {
    if cs != [] {
      assert cs[0] in cs;
      ConcatClean(cs[1..]);
    }
  }

  lemma WholeFails(cs: seq<string>)
    requires |cs| > 1 && AllClean(cs)
    ensures Unquote(Chunked(cs)) == None
  {
    var s := Chunked(cs);
    var more := [' ', DQ] + Tail(cs[1..]);
    TailEnds(cs[1..]);
    assert s == [DQ] + cs[0] + [DQ] + more;
    assert s[1..|s| - 1] == cs[0] + [DQ] + more[..|more| - 1];
    UnescapeStopsAtQuote(cs[0], more[..|more| - 1]);
  }

  lemma {:induction false} TailEnds(cs: seq<string>)
    requires cs != []
    ensures Tail(cs) != "" && Tail(cs)[|Tail(cs)| - 1] == DQ
  {
    if |cs| > 1 {
      TailEnds(cs[1..]);
    }
  }

  /** How a list of several chunks is split: in step, unless the first chunk is a single space. */
  lemma SplitChunked(cs: seq<string>)
    requires |cs| > 1 && AllClean(cs)
    ensures Split(Chunked(cs)) == if cs[0] == " " then [""] + LatePieces(cs[1..]) else [[DQ] + cs[0]] + Pieces(cs[1..])
  {
    if cs[0] == " " { SplitFirstSpace(cs); } else { SplitFirst(cs); }
  }

  lemma SplitFirstSpace(cs: seq<string>)
    requires |cs| > 1 && AllClean(cs) && cs[0] == " "
    ensures Split(Chunked(cs)) == [""] + LatePieces(cs[1..])
  {
    var rest := [' ', DQ] + Tail(cs[1..]);
    assert Chunked(cs) == "" + (Sep() + rest);
    SepIsFound(rest);
    SplitStep(Chunked(cs), "", rest);
    SplitLate(cs[1..]);
  }

  lemma SplitFirst(cs: seq<string>)
    requires |cs| > 1 && AllClean(cs) && cs[0] != " "
    ensures Split(Chunked(cs)) == [[DQ] + cs[0]] + Pieces(cs[1..])
  {
    var c, rest := cs[0], Tail(cs[1..]);
    assert c in cs;
    TailForm(cs);
    SepIsFound(rest);
    QuoteSkips(c, Sep() + rest);
    assert Chunked(cs) == [DQ] + c + (Sep() + rest);
    SplitStep(Chunked(cs), [DQ] + c, rest);
    SplitInStep(cs[1..]);
  }

  lemma FirstInStep(cs: seq<string>)
    requires |cs| > 1 && AllClean(cs) && cs[0] != " "
    ensures Rejoined(Chunked(cs)) == Concat(cs)
  {
    SplitChunked(cs);
    EachStep([DQ] + cs[0], Pieces(cs[1..]));
    assert cs[0] in cs;
    ChunkBack(cs[0]);
    PiecesBack(cs[1..]);
    ConcatForm(cs);
  }

  lemma EmptyFirst(rest: seq<string>)
    ensures Concat(UnquoteEach([""] + rest)) == Concat(UnquoteEach(rest))
  {
    EachStep("", rest);
    ChunkBack("");
  }

  lemma FirstSpace(cs: seq<string>)
    requires |cs| > 1 && AllClean(cs) && cs[0] == " "
    ensures Rejoined(Chunked(cs)) == Concat(cs) <==> Realigns(cs[1..])
  {
    SplitChunked(cs);
    EmptyFirst(LatePieces(cs[1..]));
    LateBack(cs[1..]);
    ConcatForm(cs);
  }

  lemma OneChunk(c: string)
    requires Clean(c)
    ensures UnquotedTxt(Chunked([c])) == c
  {
    var s := Chunked([c]);
    assert s == [DQ] + c + [DQ];
    assert s[1..|s| - 1] == c;
    assert HasPrefix(s, [DQ]);
    UnescapeClean(c);
  }

  lemma SeveralChunks(cs: seq<string>)
    requires |cs| > 1 && AllClean(cs)
    ensures UnquotedTxt(Chunked(cs)) == Rejoined(Chunked(cs))
  {
    WholeFails(cs);
    assert HasPrefix(Chunked(cs), [DQ]);
  }

  /** Unquoting a value that came back as adjacent quoted chunks yields the chunks' concatenation,
      unless the first of several chunks is a single space and the ones after it do not realign. */
  lemma ChunksBackExact(cs: seq<string>)
    requires cs != [] && AllClean(cs)
    ensures UnquotedTxt(Chunked(cs)) == Concat(cs) <==> |cs| == 1 || cs[0] != " " || Realigns(cs[1..])
  {
    if |cs| == 1 {
      assert cs == [cs[0]];
      assert cs[0] in cs;
      OneChunk(cs[0]);
      ConcatOne(cs[0]);
    } else {
      SeveralChunks(cs);
      if cs[0] == " " { FirstSpace(cs); } else { FirstInStep(cs); }
    }
  }

  /** A first chunk of one space is lost track of. */
  lemma FirstChunkSpaceGoesWrong()
    ensures UnquotedTxt(Chunked([" ", "x"])) != Concat([" ", "x"])
  {
    var cs := [" ", "x"];
    assert cs[1..] == ["x"];
    ChunksBackExact(cs);
  }
}
