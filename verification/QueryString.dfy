/**
 * The explorer's query string (web/src/controllers/explorer.ts): `splitQuery` turns it into facet pills and the
 * remaining text, `joinQuery` turns them back.
 */
module QueryString {
  import opened Basics

  datatype Pill = Pill(facet: string, value: string, negated: bool)

  datatype Split = Split(pills: seq<Pill>, text: string)

  // ── what JavaScript calls white space, and the library calls on it ─────

  /** The class \s, which is also what trim() removes. */
  predicate Space(c: char) {
    var n := c as int;
    9 <= n <= 13 || n == 32 || n == 0xA0 || n == 0x1680 || 0x2000 <= n <= 0x200A || n == 0x2028 || n == 0x2029
    || n == 0x202F || n == 0x205F || n == 0x3000 || n == 0xFEFF
  }

  function TrimStart(s: string): string {
    if s != [] && Space(s[0]) then TrimStart(s[1..]) else s
  }

  function TrimEnd(s: string): string {
    if s != [] && Space(Last(s)) then TrimEnd(Init(s)) else s
  }

  function Trim(s: string): string { TrimEnd(TrimStart(s)) }

  /** The length of the run of non-space characters s starts with. */
  function RunLength(s: string): (n: nat)
    ensures n <= |s| && (forall i | 0 <= i < n :: !Space(s[i])) && (n < |s| ==> Space(s[n]))
  {
    if s == [] || Space(s[0]) then 0 else 1 + RunLength(s[1..])
  }

  /** split(/\s+/).filter(Boolean) */
  function Words(s: string): seq<string>
    decreases |s|
  {
    if s == [] then [] else if Space(s[0]) then Words(s[1..]) else [s[..RunLength(s)]] + Words(s[RunLength(s)..])
  }

  /** join(" ") */
  function Unwords(ws: seq<string>): string {
    if ws == [] then "" else if |ws| == 1 then ws[0] else ws[0] + " " + Unwords(ws[1..])
  }

  /** [a, b].filter(Boolean).join(" ") */
  function Beside(a: string, b: string): string {
    if a == "" then b else if b == "" then a else a + " " + b
  }

  function Find(s: string, c: char): (n: nat)
    ensures n <= |s| && (forall i | 0 <= i < n :: s[i] != c) && (n < |s| ==> s[n] == c)
  {
    if s == [] || s[0] == c then 0 else 1 + Find(s[1..], c)
  }

  // ── splitting and joining ─────────────────────────────────────────────

  /** The filter part: everything before the first bar. */
  function Before(q: string): string { q[..Find(q, '|')] }

  predicate HasBar(q: string) { Find(q, '|') < |q| }

  /** The aggregation parts, joined by their bars again and trimmed. */
  function Aggregation(q: string): string {
    if HasBar(q) then Trim(q[Find(q, '|') + 1..]) else ""
  }

  function Parse(raw: string): Option<Pill> {
    var negated := raw != [] && raw[0] == '-';
    var term := if negated then raw[1..] else raw;
    var idx := Find(term, ':');
    if 0 < idx < |term| then Some(Pill(term[..idx], term[idx + 1..], negated)) else None
  }

  function Render(p: Pill): string {
    (if p.negated then "-" else "") + p.facet + ":" + p.value
  }

  function Pills(ws: seq<string>): seq<Pill> {
    if ws == [] then [] else Pills(Init(ws)) + (if Parse(Last(ws)).Some? then [Parse(Last(ws)).value] else [])
  }

  function Rest(ws: seq<string>): seq<string> {
    if ws == [] then [] else Rest(Init(ws)) + (if Parse(Last(ws)).Some? then [] else [Last(ws)])
  }

  function SplitOf(q: string): Split {
    var ws := Words(Before(q));
    var tail := if HasBar(q) then "| " + Aggregation(q) else "";
    Split(Pills(ws), Trim(Beside(Unwords(Rest(ws)), tail)))
  }

  function Rendered(pills: seq<Pill>): seq<string> {
    seq(|pills|, i requires 0 <= i < |pills| => Render(pills[i]))
  }

  function JoinOf(s: Split): string {
    Trim(Beside(Unwords(Rendered(s.pills)), Trim(s.text)))
  }

  /** splitQuery: the loop sorts the terms of the filter part into pills and the rest, in order. */
  method SplitQuery(q: string) returns (s: Split)
    ensures s == SplitOf(q)
  {
    var pills, rest := [], [];
    var raws := Words(q[..Find(q, '|')]);
    for i := 0 to |raws|
      invariant pills == Pills(raws[..i]) && rest == Rest(raws[..i])
    {
      assert Init(raws[..i + 1]) == raws[..i];
      var raw := raws[i];
      var negated := raw != [] && raw[0] == '-';
      var term := if negated then raw[1..] else raw;
      var idx := Find(term, ':');
      if 0 < idx < |term| {
        pills := pills + [Pill(term[..idx], term[idx + 1..], negated)];
      } else {
        rest := rest + [raw];
      }
    }
    assert raws[..|raws|] == raws;
    var tail := if Find(q, '|') < |q| then "| " + Trim(q[Find(q, '|') + 1..]) else "";
    s := Split(pills, Trim(Beside(Unwords(rest), tail)));
  }

  // ── trimming ───────────────────────────────────────────────────────────

  predicate Tight(s: string) {
    s != [] ==> !Space(s[0]) && !Space(Last(s))
  }

  lemma TightTrim(s: string)
    requires Tight(s)
    ensures Trim(s) == s && (s != "" ==> Trim(s + " ") == s)
  {
    if s != [] {
      assert TrimStart(s + " ") == s + " ";
      assert Init(s + " ") == s;
    }
  }

  lemma {:induction false} TrimEndTight(s: string)
    requires s != [] ==> !Space(s[0])
    ensures Tight(TrimEnd(s))
  {
    if s != [] && Space(Last(s)) { TrimEndTight(Init(s)); }
  }

  lemma {:induction false} TrimTight(s: string)
    ensures Tight(Trim(s))
  {
    if s != [] && Space(s[0]) { TrimTight(s[1..]); } else { TrimEndTight(s); }
  }

  // ── words ──────────────────────────────────────────────────────────────

  ghost predicate IsWord(w: string) {
    w != [] && forall i | 0 <= i < |w| :: !Space(w[i])
  }

  ghost predicate AreWords(ws: seq<string>) {
    forall i | 0 <= i < |ws| :: IsWord(ws[i])
  }

  lemma {:induction false} WordsAreWords(s: string)
    ensures AreWords(Words(s))
    decreases |s|
  {
    if s != [] {
      if Space(s[0]) { WordsAreWords(s[1..]); } else { WordsAreWords(s[RunLength(s)..]); }
    }
  }

  lemma RunOfWord(w: string, rest: string)
    requires IsWord(w) && (rest != [] ==> Space(rest[0]))
    ensures RunLength(w + rest) == |w|
  {
    assert forall i | 0 <= i < |w| :: (w + rest)[i] == w[i];
    assert rest != [] ==> (w + rest)[|w|] == rest[0];
  }

  lemma WordsOfWord(w: string, rest: string)
    requires IsWord(w) && (rest != [] ==> Space(rest[0]))
    ensures Words(w + rest) == [w] + Words(rest)
  {
    RunOfWord(w, rest);
    assert (w + rest)[..|w|] == w && (w + rest)[|w|..] == rest;
    assert (w + rest)[0] == w[0];
  }

  lemma UnwordsTight(ws: seq<string>)
    requires AreWords(ws)
    ensures Tight(Unwords(ws)) && (Unwords(ws) == "" <==> ws == [])
  {
    if |ws| > 1 { UnwordsTight(ws[1..]); }
  }

  lemma WordsAfterSpace(s: string)
    ensures Words(" " + s) == Words(s)
  {
    assert (" " + s)[1..] == s;
  }

  lemma UnwordsMore(ws: seq<string>, spaces: string)
    requires |ws| > 1
    ensures Unwords(ws) + spaces == ws[0] + (" " + (Unwords(ws[1..]) + spaces))
  {
    Associates(ws[0], " ", Unwords(ws[1..]));
    Associates(ws[0] + " ", Unwords(ws[1..]), spaces);
    Associates(ws[0], " ", Unwords(ws[1..]) + spaces);
  }

  /** Splitting joined words gives the words, whatever spaces follow. */
  lemma {:induction false} WordsOfUnwords(ws: seq<string>, spaces: string)
    requires AreWords(ws) && (forall i | 0 <= i < |spaces| :: Space(spaces[i]))
    ensures Words(Unwords(ws) + spaces) == ws
  {
    if ws == [] {
      assert "" + spaces == spaces;
      WordsOfSpaces(spaces);
    } else if |ws| == 1 {
      WordsOfWord(ws[0], spaces);
      WordsOfSpaces(spaces);
    } else {
      var more := Unwords(ws[1..]) + spaces;
      assert AreWords(ws[1..]);
      WordsOfUnwords(ws[1..], spaces);
      UnwordsMore(ws, spaces);
      assert (" " + more)[0] == ' ';
      WordsOfWord(ws[0], " " + more);
      WordsAfterSpace(more);
    }
  }

  lemma {:induction false} WordsOfSpaces(spaces: string)
    requires forall i | 0 <= i < |spaces| :: Space(spaces[i])
    ensures Words(spaces) == []
  {
    if spaces != [] { WordsOfSpaces(spaces[1..]); }
  }

  lemma {:induction false} UnwordsConcat(xs: seq<string>, ys: seq<string>)
    requires AreWords(xs) && AreWords(ys)
    ensures Unwords(xs + ys) == Beside(Unwords(xs), Unwords(ys))
  {
    UnwordsTight(xs);
    UnwordsTight(ys);
    if xs == [] {
      assert xs + ys == ys;
    } else if ys == [] {
      assert xs + ys == xs;
    } else {
      assert (xs + ys)[0] == xs[0] && (xs + ys)[1..] == xs[1..] + ys;
      UnwordsConcat(xs[1..], ys);
      UnwordsTight(xs[1..]);
    }
  }

  // ── bars ───────────────────────────────────────────────────────────────

  ghost predicate Plain(s: string) {
    forall i | 0 <= i < |s| :: s[i] != '|'
  }

  ghost predicate AllPlain(ws: seq<string>) {
    forall i | 0 <= i < |ws| :: Plain(ws[i])
  }

  lemma {:induction false} WordsPlain(s: string)
    requires Plain(s)
    ensures AllPlain(Words(s))
    decreases |s|
  {
    if s != [] {
      if Space(s[0]) { WordsPlain(s[1..]); } else { WordsPlain(s[RunLength(s)..]); }
    }
  }

  lemma {:induction false} UnwordsPlain(ws: seq<string>)
    requires AllPlain(ws)
    ensures Plain(Unwords(ws))
  {
    if |ws| > 1 { UnwordsPlain(ws[1..]); }
  }

  lemma FindsBar(a: string, b: string)
    requires Plain(a) && (b != [] ==> b[0] == '|')
    ensures Find(a + b, '|') == |a|
  {
    assert forall i | 0 <= i < |a| :: (a + b)[i] == a[i];
    assert b != [] ==> (a + b)[|a|] == b[0];
  }

  // ── the canonical form ─────────────────────────────────────────────────

  /** What follows the terms: nothing, a bar, or a bar and the trimmed aggregation. */
  datatype Tail = NoBar | Bar(aggregation: string)

  function Shown(t: Tail): string {
    match t
    case NoBar => ""
    case Bar(a) => if a == "" then "|" else "| " + a
  }

  function TailOf(q: string): Tail {
    if HasBar(q) then Bar(Aggregation(q)) else NoBar
  }

  ghost predicate Trimmed(t: Tail) {
    t.Bar? ==> Tight(t.aggregation)
  }

  function Canonical(ws: seq<string>, t: Tail): string {
    Beside(Unwords(ws), Shown(t))
  }

  lemma ShownTight(t: Tail)
    requires Trimmed(t)
    ensures Tight(Shown(t)) && (t.Bar? ==> Trim("| " + t.aggregation) == Shown(t))
  {
    if t.Bar? {
      if t.aggregation == "" {
        assert Init("| ") == "|";
        TightTrim("|");
        assert "| " + t.aggregation == "|" + " ";
      } else {
        assert Last("| " + t.aggregation) == Last(t.aggregation);
        TightTrim("| " + t.aggregation);
      }
    }
  }

  lemma BesideTight(a: string, b: string)
    requires Tight(a) && Tight(b)
    ensures Tight(Beside(a, b))
  {
  }

  lemma CanonicalTight(ws: seq<string>, t: Tail)
    requires AreWords(ws) && Trimmed(t)
    ensures Tight(Canonical(ws, t)) && Trim(Canonical(ws, t)) == Canonical(ws, t)
  {
    UnwordsTight(ws);
    ShownTight(t);
    BesideTight(Unwords(ws), Shown(t));
    TightTrim(Canonical(ws, t));
  }

  /** The text of a split is the rest of the terms and the tail, in canonical form. */
  lemma TextIsCanonical(ws: seq<string>, t: Tail)
    requires AreWords(ws) && Trimmed(t)
    ensures Trim(Beside(Unwords(ws), if t.Bar? then "| " + t.aggregation else "")) == Canonical(ws, t)
  {
    CanonicalTight(ws, t);
    UnwordsTight(ws);
    ShownTight(t);
    if t.Bar? && t.aggregation == "" {
      var c := Canonical(ws, t);
      assert Beside(Unwords(ws), "| " + t.aggregation) == c + " ";
      TightTrim(c);
    }
  }

  function Head(ws: seq<string>, t: Tail): string {
    Unwords(ws) + (if ws == [] || t.NoBar? then "" else " ")
  }

  lemma CanonicalParts(ws: seq<string>, t: Tail)
    requires AreWords(ws) && AllPlain(ws)
    ensures Canonical(ws, t) == Head(ws, t) + Shown(t) && Find(Canonical(ws, t), '|') == |Head(ws, t)|
    ensures Canonical(ws, t)[..|Head(ws, t)|] == Head(ws, t) && Canonical(ws, t)[|Head(ws, t)|..] == Shown(t)
  {
    UnwordsTight(ws);
    UnwordsPlain(ws);
    assert Canonical(ws, t) == Head(ws, t) + Shown(t);
    FindsBar(Head(ws, t), Shown(t));
  }

  lemma AggregationOf(t: Tail)
    requires Trimmed(t) && t.Bar?
    ensures Trim(Shown(t)[1..]) == t.aggregation
  {
    var a := t.aggregation;
    TightTrim(a);
    if a != "" {
      assert Shown(t)[1..] == " " + a && (" " + a)[1..] == a;
    }
  }

  /** A canonical string splits into its terms and its tail. */
  lemma PartsOfCanonical(ws: seq<string>, t: Tail)
    requires AreWords(ws) && AllPlain(ws) && Trimmed(t)
    ensures Words(Before(Canonical(ws, t))) == ws && TailOf(Canonical(ws, t)) == t
  {
    var c, h := Canonical(ws, t), Head(ws, t);
    CanonicalParts(ws, t);
    WordsOfUnwords(ws, if ws == [] || t.NoBar? then "" else " ");
    assert Before(c) == h;
    assert c == h + Shown(t);
    TailAfter(c, h, t);
  }

  lemma TailAfter(c: string, h: string, t: Tail)
    requires Trimmed(t) && c == h + Shown(t) && Find(c, '|') == |h|
    ensures TailOf(c) == t
  {
    if t.Bar? {
      assert c[|h| + 1..] == Shown(t)[1..];
      AggregationOf(t);
    }
  }

  // ── pills ──────────────────────────────────────────────────────────────

  /** What `Parse` can produce, and what survives rendering. */
  ghost predicate WellFormed(p: Pill) {
    && IsWord(Render(p)) && Plain(Render(p))
    && p.facet != "" && (forall i | 0 <= i < |p.facet| :: p.facet[i] != ':')
    && (!p.negated ==> p.facet[0] != '-')
  }

  lemma Associates<T>(a: seq<T>, b: seq<T>, c: seq<T>)
    ensures (a + b) + c == a + (b + c)
  {
  }

  lemma AtColon(term: string, idx: nat)
    requires idx < |term| && term[idx] == ':'
    ensures term[..idx] + ":" + term[idx + 1..] == term
  {
  }

  lemma RenderIs(p: Pill)
    ensures Render(p) == (if p.negated then "-" else "") + (p.facet + ":" + p.value)
  {
    if p.negated {
      Associates("-", p.facet, ":");
      Associates("-", p.facet + ":", p.value);
    } else {
      assert "" + p.facet == p.facet && "" + (p.facet + ":" + p.value) == p.facet + ":" + p.value;
    }
  }

  lemma RenderParse(raw: string)
    requires Parse(raw).Some?
    ensures Render(Parse(raw).value) == raw
  {
    var negated := raw[0] == '-';
    var term := if negated then raw[1..] else raw;
    AtColon(term, Find(term, ':'));
    RenderIs(Parse(raw).value);
    assert negated ==> "-" + raw[1..] == raw;
    assert !negated ==> "" + raw == raw;
  }

  lemma ParseIsWellFormed(raw: string)
    requires Parse(raw).Some? && IsWord(raw) && Plain(raw)
    ensures WellFormed(Parse(raw).value)
  {
    RenderParse(raw);
  }

  lemma FindsColon(facet: string, value: string)
    requires forall i | 0 <= i < |facet| :: facet[i] != ':'
    ensures Find(facet + ":" + value, ':') == |facet|
  {
    var s := facet + ":" + value;
    assert forall i | 0 <= i < |facet| :: s[i] == facet[i];
    assert s[|facet|] == ':';
  }

  lemma ParseRender(p: Pill)
    requires WellFormed(p)
    ensures Parse(Render(p)) == Some(p)
  {
    FindsColon(p.facet, p.value);
    var term := p.facet + ":" + p.value;
    assert term[..|p.facet|] == p.facet && term[|p.facet| + 1..] == p.value;
    if p.negated {
      assert Render(p) == "-" + term && Render(p)[1..] == term;
    } else {
      assert Render(p) == term && term[0] == p.facet[0];
    }
  }

  ghost predicate AllWellFormed(pills: seq<Pill>) {
    forall i | 0 <= i < |pills| :: WellFormed(pills[i])
  }

  lemma {:induction false} PillsAreWellFormed(ws: seq<string>)
    requires AreWords(ws) && AllPlain(ws)
    ensures AllWellFormed(Pills(ws))
  {
    if ws != [] {
      PillsAreWellFormed(Init(ws));
      if Parse(Last(ws)).Some? { ParseIsWellFormed(Last(ws)); }
    }
  }

  lemma {:induction false} RestIsPlain(ws: seq<string>)
    requires AreWords(ws) && AllPlain(ws)
    ensures AreWords(Rest(ws)) && AllPlain(Rest(ws)) && Pills(Rest(ws)) == [] && Rest(Rest(ws)) == Rest(ws)
  {
    if ws != [] {
      RestIsPlain(Init(ws));
      if Parse(Last(ws)).None? {
        assert Init(Rest(ws)) == Rest(Init(ws));
      } else {
        assert Rest(ws) == Rest(Init(ws));
      }
    }
  }

  lemma PillsSnoc(ws: seq<string>, w: string)
    ensures Pills(ws + [w]) == Pills(ws) + (if Parse(w).Some? then [Parse(w).value] else [])
    ensures Rest(ws + [w]) == Rest(ws) + (if Parse(w).Some? then [] else [w])
  {
    assert Init(ws + [w]) == ws;
  }

  lemma {:induction false} PillsConcat(xs: seq<string>, ys: seq<string>)
    ensures Pills(xs + ys) == Pills(xs) + Pills(ys) && Rest(xs + ys) == Rest(xs) + Rest(ys)
  {
    if ys == [] {
      assert xs + ys == xs;
    } else {
      var w, zs := Last(ys), Init(ys);
      PillsConcat(xs, zs);
      assert ys == zs + [w];
      Associates(xs, zs, [w]);
      PillsConcatSnoc(xs, zs, w);
    }
  }

  lemma PillsConcatSnoc(xs: seq<string>, zs: seq<string>, w: string)
    requires Pills(xs + zs) == Pills(xs) + Pills(zs) && Rest(xs + zs) == Rest(xs) + Rest(zs)
    ensures Pills((xs + zs) + [w]) == Pills(xs) + Pills(zs + [w]) && Rest((xs + zs) + [w]) == Rest(xs) + Rest(zs + [w])
  {
    var pill, rest := if Parse(w).Some? then [Parse(w).value] else [], if Parse(w).Some? then [] else [w];
    PillsSnoc(zs, w);
    PillsSnoc(xs + zs, w);
    Associates(Pills(xs), Pills(zs), pill);
    Associates(Rest(xs), Rest(zs), rest);
  }

  lemma RenderedWords(pills: seq<Pill>)
    requires AllWellFormed(pills)
    ensures AreWords(Rendered(pills)) && AllPlain(Rendered(pills))
  {
  }

  lemma {:induction false} ParsedBack(pills: seq<Pill>)
    requires AllWellFormed(pills)
    ensures Pills(Rendered(pills)) == pills && Rest(Rendered(pills)) == []
  {
    if pills != [] {
      var earlier, p := Init(pills), Last(pills);
      assert pills == earlier + [p] && WellFormed(p) && AllWellFormed(earlier);
      ParsedBack(earlier);
      RenderedSnoc(earlier, p);
      PillsSnoc(Rendered(earlier), Render(p));
      ParseRender(p);
    }
  }

  lemma PillsOfRendered(pills: seq<Pill>)
    requires AllWellFormed(pills)
    ensures Pills(Rendered(pills)) == pills && Rest(Rendered(pills)) == []
    ensures AreWords(Rendered(pills)) && AllPlain(Rendered(pills))
  {
    ParsedBack(pills);
    RenderedWords(pills);
  }

  // ── the pair ───────────────────────────────────────────────────────────

  lemma TermsOf(q: string)
    ensures AreWords(Words(Before(q))) && AllPlain(Words(Before(q))) && Trimmed(TailOf(q))
  {
    WordsAreWords(Before(q));
    WordsPlain(Before(q));
    if HasBar(q) { TrimTight(q[Find(q, '|') + 1..]); }
  }

  lemma SplitIsCanonical(q: string)
    ensures var ws := Words(Before(q)); SplitOf(q) == Split(Pills(ws), Canonical(Rest(ws), TailOf(q)))
  {
    TermsOf(q);
    RestIsPlain(Words(Before(q)));
    TextIsCanonical(Rest(Words(Before(q))), TailOf(q));
  }

  lemma BesideAssociates(a: string, b: string, c: string)
    ensures Beside(Beside(a, b), c) == Beside(a, Beside(b, c))
  {
    assert a != "" && b != "" && c != "" ==> (a + " " + b) + " " + c == a + " " + (b + " " + c);
  }

  /** Joining pills to a canonical text puts their terms in front of it. */
  lemma JoinIsCanonical(pills: seq<Pill>, rest: seq<string>, t: Tail)
    requires AllWellFormed(pills) && AreWords(rest) && Trimmed(t)
    ensures JoinOf(Split(pills, Canonical(rest, t))) == Canonical(Rendered(pills) + rest, t)
  {
    PillsOfRendered(pills);
    CanonicalTight(rest, t);
    UnwordsConcat(Rendered(pills), rest);
    BesideAssociates(Unwords(Rendered(pills)), Unwords(rest), Shown(t));
    CanonicalTight(Rendered(pills) + rest, t);
  }

  function Normal(q: string): string { JoinOf(SplitOf(q)) }

  /** The normal form has the same terms, pills first and each group in order, and the same aggregation. */
  lemma NormalForm(q: string)
    ensures var ws := Words(Before(q));
            && Words(Before(Normal(q))) == Rendered(Pills(ws)) + Rest(ws)
            && TailOf(Normal(q)) == TailOf(q)
            && multiset(Words(Before(Normal(q)))) == multiset(ws)
  {
    var ws := Words(Before(q));
    TermsOf(q);
    NormalIsCanonical(q, ws);
    PartsOfCanonical(Rendered(Pills(ws)) + Rest(ws), TailOf(q));
    SameTerms(ws);
  }

  lemma NormalIsCanonical(q: string, ws: seq<string>)
    requires ws == Words(Before(q)) && AreWords(ws) && AllPlain(ws) && Trimmed(TailOf(q))
    ensures AreWords(Rendered(Pills(ws)) + Rest(ws)) && AllPlain(Rendered(Pills(ws)) + Rest(ws))
    ensures Normal(q) == Canonical(Rendered(Pills(ws)) + Rest(ws), TailOf(q))
  {
    PillsAreWellFormed(ws);
    RestIsPlain(ws);
    PillsOfRendered(Pills(ws));
    SplitIsCanonical(q);
    JoinIsCanonical(Pills(ws), Rest(ws), TailOf(q));
  }

  lemma RenderedSnoc(pills: seq<Pill>, p: Pill)
    ensures Rendered(pills + [p]) == Rendered(pills) + [Render(p)]
  {
  }

  lemma OneMoreTerm<T>(a: seq<T>, b: seq<T>, all: seq<T>, x: T)
    requires multiset(a) + multiset(b) == multiset(all)
    ensures multiset(a + [x]) + multiset(b) == multiset(all + [x])
    ensures multiset(a) + multiset(b + [x]) == multiset(all + [x])
  {
  }

  /** Sorting the terms into pills and the rest, and rendering the pills, loses and invents no term. */
  lemma {:induction false} SameTerms(ws: seq<string>)
    ensures multiset(Rendered(Pills(ws))) + multiset(Rest(ws)) == multiset(ws)
  {
    if ws == [] {
      assert Rendered(Pills(ws)) == [] && Rest(ws) == [];
    } else {
      var earlier, w := Init(ws), Last(ws);
      SameTerms(earlier);
      OneMoreSorted(earlier, w);
      assert ws == earlier + [w];
    }
  }

  lemma OneMoreSorted(ws: seq<string>, w: string)
    requires multiset(Rendered(Pills(ws))) + multiset(Rest(ws)) == multiset(ws)
    ensures multiset(Rendered(Pills(ws + [w]))) + multiset(Rest(ws + [w])) == multiset(ws + [w])
  {
    TermSorted(ws, w);
    OneMoreTerm(Rendered(Pills(ws)), Rest(ws), ws, w);
  }

  lemma TermSorted(ws: seq<string>, w: string)
    ensures || (Rendered(Pills(ws + [w])) == Rendered(Pills(ws)) + [w] && Rest(ws + [w]) == Rest(ws))
            || (Rendered(Pills(ws + [w])) == Rendered(Pills(ws)) && Rest(ws + [w]) == Rest(ws) + [w])
  {
    PillsSnoc(ws, w);
    if Parse(w).Some? {
      RenderParse(w);
      RenderedSnoc(Pills(ws), Parse(w).value);
      assert Rest(ws + [w]) == Rest(ws) + [] == Rest(ws);
    } else {
      assert Pills(ws + [w]) == Pills(ws) + [] == Pills(ws);
    }
  }

  /** Sorting the terms of a split again changes nothing. */
  lemma SortedTerms(ws: seq<string>)
    requires AreWords(ws) && AllPlain(ws)
    ensures Pills(Rendered(Pills(ws)) + Rest(ws)) == Pills(ws) && Rest(Rendered(Pills(ws)) + Rest(ws)) == Rest(ws)
  {
    PillsAreWellFormed(ws);
    RestIsPlain(ws);
    RenderedThenPlain(Pills(ws), Rest(ws));
  }

  /** For every query string: splitting what its split joins to gives the same split, so joining after splitting is idempotent. */
  lemma SplitJoinSplit(q: string)
    ensures SplitOf(JoinOf(SplitOf(q))) == SplitOf(q) && Normal(Normal(q)) == Normal(q)
  {
    TermsOf(q);
    NormalForm(q);
    SortedTerms(Words(Before(q)));
    SplitIsCanonical(q);
    SplitIsCanonical(Normal(q));
  }

  /** A text that holds no pill and is spaced as `splitQuery` spaces it. */
  predicate Settled(text: string) {
    SplitOf(text) == Split([], text)
  }

  lemma SplitOfCanonical(ws: seq<string>, t: Tail)
    requires AreWords(ws) && AllPlain(ws) && Trimmed(t)
    ensures SplitOf(Canonical(ws, t)) == Split(Pills(ws), Canonical(Rest(ws), t))
  {
    PartsOfCanonical(ws, t);
    SplitIsCanonical(Canonical(ws, t));
  }

  /** Whatever the query, the text a split leaves is settled. */
  lemma SplitSettles(q: string)
    ensures Settled(SplitOf(q).text)
  {
    TermsOf(q);
    RestIsPlain(Words(Before(q)));
    SplitIsCanonical(q);
    SplitOfCanonical(Rest(Words(Before(q))), TailOf(q));
  }

  /** A settled text is the canonical form of terms that are no pills. */
  lemma SettledForm(text: string) returns (ws: seq<string>, t: Tail)
    requires Settled(text)
    ensures AreWords(ws) && AllPlain(ws) && Trimmed(t) && text == Canonical(ws, t)
    ensures Pills(ws) == [] && Rest(ws) == ws
  {
    TermsOf(text);
    SplitIsCanonical(text);
    RestIsPlain(Words(Before(text)));
    ws, t := Rest(Words(Before(text))), TailOf(text);
  }

  lemma JoinedSplits(pills: seq<Pill>, ws: seq<string>, t: Tail)
    requires AllWellFormed(pills) && AreWords(ws) && AllPlain(ws) && Trimmed(t) && Pills(ws) == [] && Rest(ws) == ws
    ensures SplitOf(JoinOf(Split(pills, Canonical(ws, t)))) == Split(pills, Canonical(ws, t))
  {
    RenderedThenPlain(pills, ws);
    JoinIsCanonical(pills, ws, t);
    SplitOfCanonical(Rendered(pills) + ws, t);
  }

  /** Rendered pills followed by terms that are no pills are sorted as they stand. */
  lemma RenderedThenPlain(pills: seq<Pill>, ws: seq<string>)
    requires AllWellFormed(pills) && AreWords(ws) && AllPlain(ws) && Pills(ws) == [] && Rest(ws) == ws
    ensures AreWords(Rendered(pills) + ws) && AllPlain(Rendered(pills) + ws)
    ensures Pills(Rendered(pills) + ws) == pills && Rest(Rendered(pills) + ws) == ws
  {
    PillsOfRendered(pills);
    PillsConcat(Rendered(pills), ws);
    assert pills + [] == pills && [] + ws == ws;
  }

  /** Pills and text survive joining and splitting exactly when each pill is well formed and the text is settled. */
  lemma RoundTripIff(pills: seq<Pill>, text: string)
    ensures SplitOf(JoinOf(Split(pills, text))) == Split(pills, text) <==> AllWellFormed(pills) && Settled(text)
  {
    var q := JoinOf(Split(pills, text));
    if SplitOf(q) == Split(pills, text) {
      SplitIsCanonical(q);
      TermsOf(q);
      PillsAreWellFormed(Words(Before(q)));
      SplitSettles(q);
    }
    if AllWellFormed(pills) && Settled(text) {
      var ws, t := SettledForm(text);
      JoinedSplits(pills, ws, t);
    }
  }

  // ── what a query is made of, character by character ────────────────────

  ghost predicate Blank(s: string) {
    forall c <- s :: Space(c)
  }

  /** t is what is left of s when the white space at its ends is cut off. */
  ghost predicate IsTrimmed(s: string, t: string) {
    Tight(t) && exists k: nat :: k <= |s| && Blank(s[..k]) && CutAfter(s[k..], t)
  }

  ghost predicate CutAfter(s: string, t: string) {
    t <= s && Blank(s[|t|..])
  }

  lemma {:induction false} TrimEndCuts(s: string)
    ensures CutAfter(s, TrimEnd(s))
  {
    if s != [] && Space(Last(s)) {
      var t := TrimEnd(Init(s));
      TrimEndCuts(Init(s));
      assert s[|t|..] == Init(s)[|t|..] + [Last(s)];
    } else {
      assert s[|s|..] == [];
    }
  }

  lemma {:induction false} TrimCuts(s: string)
    ensures IsTrimmed(s, Trim(s))
  {
    TrimTight(s);
    if s != [] && Space(s[0]) {
      TrimCuts(s[1..]);
      var k: nat :| k <= |s[1..]| && Blank(s[1..][..k]) && CutAfter(s[1..][k..], Trim(s[1..]));
      assert s[..k + 1] == [s[0]] + s[1..][..k] && s[k + 1..] == s[1..][k..];
    } else {
      TrimEndCuts(s);
      assert s[..0] == [] && s[0..] == s;
    }
  }

  /** The filter part ends at the first bar; everything behind it, trimmed, is the aggregation. */
  lemma QueryParts(q: string, k: nat)
    requires k <= |q| && (forall i | 0 <= i < k :: q[i] != '|') && (k < |q| ==> q[k] == '|')
    ensures Before(q) == q[..k]
    ensures if k == |q| then TailOf(q) == NoBar else TailOf(q).Bar? && IsTrimmed(q[k + 1..], TailOf(q).aggregation)
  {
    assert Find(q, '|') == k;
    if k < |q| { TrimCuts(q[k + 1..]); }
  }

  /** The characters that are no white space, in order. */
  function Letters(s: string): string {
    if s == [] then [] else (if Space(s[0]) then [] else [s[0]]) + Letters(s[1..])
  }

  function Joined(ws: seq<string>): string {
    if ws == [] then [] else ws[0] + Joined(ws[1..])
  }

  lemma {:induction false} LettersConcat(a: string, b: string)
    ensures Letters(a + b) == Letters(a) + Letters(b)
  {
    if a == [] {
      assert a + b == b;
    } else {
      var head := if Space(a[0]) then [] else [a[0]];
      LettersConcat(a[1..], b);
      assert (a + b)[0] == a[0] && (a + b)[1..] == a[1..] + b;
      Associates(head, Letters(a[1..]), Letters(b));
    }
  }

  lemma {:induction false} WordLetters(w: string)
    requires forall i | 0 <= i < |w| :: !Space(w[i])
    ensures Letters(w) == w
  {
    if w != [] { WordLetters(w[1..]); }
  }

  /** The words of a string are its characters but the white space, none lost, none moved. */
  lemma {:induction false} WordsKeepLetters(s: string)
    ensures Joined(Words(s)) == Letters(s)
    decreases |s|
  {
    if s != [] {
      if Space(s[0]) {
        WordsKeepLetters(s[1..]);
      } else {
        var n := RunLength(s);
        WordsKeepLetters(s[n..]);
        WordLetters(s[..n]);
        LettersConcat(s[..n], s[n..]);
        assert s == s[..n] + s[n..];
        assert ([s[..n]] + Words(s[n..]))[1..] == Words(s[n..]);
      }
    }
  }

  /** A term is a pill exactly when, a leading minus aside, something stands before its first colon; the pill is its parts. */
  lemma ParseIff(raw: string, p: Pill)
    ensures Parse(raw) == Some(p) <==>
              && raw == (if p.negated then "-" else "") + (p.facet + ":" + p.value)
              && p.facet != "" && (forall c <- p.facet :: c != ':') && (!p.negated ==> p.facet[0] != '-')
  {
    if Parse(raw) == Some(p) {
      RenderParse(raw);
      RenderIs(p);
    } else if raw == (if p.negated then "-" else "") + (p.facet + ":" + p.value) && p.facet != "" && (forall c <- p.facet :: c != ':')
              && (!p.negated ==> p.facet[0] != '-') {
      PartsParse(raw, p);
    }
  }

  lemma PartsParse(raw: string, p: Pill)
    requires raw == (if p.negated then "-" else "") + (p.facet + ":" + p.value)
    requires p.facet != "" && (forall c <- p.facet :: c != ':') && (!p.negated ==> p.facet[0] != '-')
    ensures Parse(raw) == Some(p)
  {
    var term := p.facet + ":" + p.value;
    assert p.negated ==> raw[0] == '-' && raw[1..] == term;
    assert !p.negated ==> raw == term && raw[0] == p.facet[0];
    assert term[|p.facet|] == ':' && term[..|p.facet|] == p.facet && term[|p.facet| + 1..] == p.value;
    forall i | 0 <= i < |p.facet| ensures term[i] != ':' { assert term[i] == p.facet[i] && p.facet[i] in p.facet; }
    assert Find(term, ':') == |p.facet|;
  }
}
