/** The chart directive `{{chart:<type><separator><body>}}` as the chart
    parser's global regular expression finds it, written as a scanner: a
    keyword from a fixed alternation, a separator `\s*\n` or `\s+`, and the
    shortest body that is followed by `}}`. Matches are found left to right
    and never overlap. */
module ChartPattern {
  import opened Wrappers
  import opened JsStrings
  import opened Charts

  const Open: string := "{{chart:"

  /** The first of the keywords `ks` that follows `{{chart:` at the start of
      `t`, tried in order as an alternation is. */
  function KeywordIn(t: string, ks: seq<ChartType>): (r: Option<ChartType>)
    ensures r.Some? ==> r.value in ks
  {
    if |ks| == 0 then None
    else if StartsWith(t, Open + TypeName(ks[0])) then Some(ks[0])
    else KeywordIn(t, ks[1..])
  }

  /** The chart type whose keyword follows `{{chart:` at the start of `t`. */
  function KeywordAt(t: string): (r: Option<ChartType>)
    ensures r.Some? ==> r.value in PatternTypes
  {
    KeywordIn(t, PatternTypes)
  }

  /** The keyword found is spelled at the start of `t`. */
  lemma {:induction false} KeywordInSpelled(t: string, ks: seq<ChartType>)
    ensures KeywordIn(t, ks).Some? ==> StartsWith(t, Open + TypeName(KeywordIn(t, ks).value))
  {
    if |ks| > 0 && !StartsWith(t, Open + TypeName(ks[0])) {
      KeywordInSpelled(t, ks[1..]);
    }
  }

  /** Nothing is found only when no keyword of `ks` follows. */
  lemma {:induction false} KeywordInNone(t: string, ks: seq<ChartType>)
    requires forall i :: 0 <= i < |ks| ==> !StartsWith(t, Open + TypeName(ks[i]))
    ensures KeywordIn(t, ks).None?
  {
    if |ks| > 0 {
      KeywordInNone(t, ks[1..]);
    }
  }

  /** The first letter of each keyword. */
  function Initial(k: ChartType): char {
    match k
    case Line => 'l'
    case Bar => 'b'
    case Column => 'c'
    case Pie => 'p'
    case Area => 'a'
    case Scatter => 's'
    case Timeseries => 't'
  }

  lemma InitialIsFirst(k: ChartType)
    ensures |TypeName(k)| > 0 && TypeName(k)[0] == Initial(k)
    ensures (Open + TypeName(k))[|Open|] == Initial(k)
  {
  }

  lemma {:induction false} KeywordInUnique(t: string, ks: seq<ChartType>, k: ChartType)
    requires k in ks && StartsWith(t, Open + TypeName(k))
    requires forall i :: 0 <= i < |ks| && ks[i] != k ==> Initial(ks[i]) != Initial(k)
    ensures KeywordIn(t, ks) == Some(k)
  {
    if ks[0] != k {
      InitialIsFirst(k);
      InitialIsFirst(ks[0]);
      assert t[|Open|] == Initial(k);
      var w := Open + TypeName(ks[0]);
      assert w[|Open|] != t[|Open|];
      assert !StartsWith(t, w);
      assert k in ks[1..];
      KeywordInUnique(t, ks[1..], k);
    }
  }

  /** No two keywords of the alternation start with the same letter, so the
      keyword found is the one the text spells. */
  lemma KeywordUnique(t: string, k: ChartType)
    requires k in PatternTypes && StartsWith(t, Open + TypeName(k))
    ensures KeywordAt(t) == Some(k)
  {
    KeywordInUnique(t, PatternTypes, k);
  }

  /** Length of the fixed head `{{chart:<type>` of a directive of type `k`. */
  function HeadLen(k: ChartType): nat {
    |Open| + |TypeName(k)|
  }

  /** `t` starts with the head of a `k` directive and one white-space character. */
  predicate HasHead(t: string, k: ChartType) {
    StartsWith(t, Open + TypeName(k)) && HeadLen(k) < |t| && IsSpace(t[HeadLen(k)])
  }

  /** Scans the white-space run from `i`; `nl` is just after the last newline
      seen so far. The separator ends after the last newline of the run
      (`\s*\n`, greedy), or at the end of a run without one (`\s+`). */
  function SeparatorScan(t: string, i: nat, nl: Option<nat>): (b: nat)
    requires i <= |t| && (nl.Some? ==> nl.value <= i)
    ensures b <= |t| && (nl.Some? ==> nl.value <= b) && (nl.None? ==> i <= b)
    decreases |t| - i
  {
    if i < |t| && IsSpace(t[i]) then SeparatorScan(t, i + 1, if t[i] == '\n' then Some(i + 1) else nl)
    else match nl case Some(n) => n case None => i
  }

  /** Where the body starts when the separator should begin at `j`. */
  function SeparatorEnd(t: string, j: nat): (b: Option<nat>)
    requires j <= |t|
    ensures b.Some? <==> j < |t| && IsSpace(t[j])
    ensures b.Some? ==> j < b.value <= |t|
  {
    if j < |t| && IsSpace(t[j]) then Some(SeparatorScan(t, j, None)) else None
  }

  lemma {:induction false} ScanShape(t: string, lo: nat, i: nat, nl: Option<nat>)
    requires lo <= i <= |t| && (nl.Some? ==> lo < nl.value <= i && t[nl.value - 1] == '\n')
    requires forall m :: lo <= m < i ==> IsSpace(t[m])
    ensures var b := SeparatorScan(t, i, nl);
      && (forall m :: lo <= m < b ==> IsSpace(t[m]))
      && (lo < b ==> t[b - 1] == '\n' || b == |t| || !IsSpace(t[b]))
    decreases |t| - i
  {
    if i < |t| && IsSpace(t[i]) {
      ScanShape(t, lo, i + 1, if t[i] == '\n' then Some(i + 1) else nl);
    }
  }

  /** The separator is white space, and the body starts after its last
      newline, or after all of it when there is none. */
  lemma SeparatorShape(t: string, j: nat)
    requires j <= |t| && SeparatorEnd(t, j).Some?
    ensures var b := SeparatorEnd(t, j).value;
      && (forall m :: j <= m < b ==> IsSpace(t[m]))
      && (t[b - 1] == '\n' || b == |t| || !IsSpace(t[b]))
  {
    ScanShape(t, j, j, None);
  }

  /** The closing `}}` occurs at `c`. */
  predicate CloseAt(t: string, c: int) {
    0 <= c && c + 1 < |t| && t[c] == '}' && t[c + 1] == '}'
  }

  /** `t.indexOf("}}", from)`: the first closing `}}` at or after `from`. */
  function FindClose(t: string, from: nat): (r: Option<nat>)
    requires from <= |t|
    ensures r.Some? ==> from <= r.value && CloseAt(t, r.value)
    decreases |t| - from
  {
    if CloseAt(t, from) then Some(from)
    else if from == |t| then None
    else FindClose(t, from + 1)
  }

  /** The `}}` found is the first one, and none is missed. */
  lemma {:induction false} FindCloseFirst(t: string, from: nat)
    requires from <= |t|
    ensures FindClose(t, from).Some? ==> forall c :: from <= c < FindClose(t, from).value ==> !CloseAt(t, c)
    ensures FindClose(t, from).None? ==> forall c :: from <= c ==> !CloseAt(t, c)
    decreases |t| - from
  {
    if !CloseAt(t, from) && from < |t| {
      FindCloseFirst(t, from + 1);
    }
  }

  lemma CloseAtIsOccurrence(t: string, c: int)
    ensures CloseAt(t, c) <==> OccursAt(t, "}}", c)
  {
    if 0 <= c && c + 2 <= |t| {
      assert t[c..c + 2] == [t[c], t[c + 1]];
    }
  }

  /** Searching for the two characters one by one is `indexOf("}}", from)`. */
  lemma FindCloseIsIndexOf(t: string, from: nat)
    requires from <= |t|
    ensures FindClose(t, from) == IndexOf(t, "}}", from)
  {
    forall c ensures CloseAt(t, c) <==> OccursAt(t, "}}", c) {
      CloseAtIsOccurrence(t, c);
    }
    FindCloseFirst(t, from);
  }

  /** Where a directive found at the start of a text lies in it: its type,
      the body `[bodyStart, bodyEnd)`, and the end just after `}}`. */
  datatype Span = Span(kind: ChartType, bodyStart: nat, bodyEnd: nat, end: nat)

  /** The directive at the very start of `t`, as the regular expression
      matches it: keyword, separator, and the lazy body up to the first `}}`.
      When no `}}` follows, no other choice of separator can succeed either
      (white space holds no `}`), so there is no match. */
  function MatchPrefix(t: string): (r: Option<Span>)
    ensures r.Some? ==> r.value.bodyStart <= r.value.bodyEnd && r.value.end == r.value.bodyEnd + 2 <= |t|
  {
    match KeywordAt(t)
    case None => None
    case Some(k) =>
      KeywordInSpelled(t, PatternTypes);
      match SeparatorEnd(t, HeadLen(k))
      case None => None
      case Some(b) =>
        match FindClose(t, b)
        case None => None
        case Some(c) => Some(Span(k, b, c, c + 2))
  }

  /** What a directive found at the start of `t` consists of: a keyword of
      the alternation and white space, then a body in which `}}` does not
      occur, then `}}`; the body starts after the last newline of the white
      space, or after all of it when there is no newline. */
  lemma MatchShape(t: string)
    requires MatchPrefix(t).Some?
    ensures var r := MatchPrefix(t).value;
      && r.kind in PatternTypes && HasHead(t, r.kind)
      && HeadLen(r.kind) < r.bodyStart
      && (forall m :: HeadLen(r.kind) <= m < r.bodyStart ==> IsSpace(t[m]))
      && (t[r.bodyStart - 1] == '\n' || r.bodyStart == |t| || !IsSpace(t[r.bodyStart]))
      && CloseAt(t, r.bodyEnd)
      && (forall c :: r.bodyStart <= c < r.bodyEnd ==> !CloseAt(t, c))
  {
    var k := KeywordAt(t).value;
    KeywordInSpelled(t, PatternTypes);
    SeparatorShape(t, HeadLen(k));
    FindCloseFirst(t, SeparatorEnd(t, HeadLen(k)).value);
  }

  /** The converse: a head, a white-space character and a later `}}` are all
      a directive needs, and its body ends no later than that `}}`. */
  lemma MatchWhenHead(t: string, k: ChartType, c: nat)
    requires k in PatternTypes && HasHead(t, k)
    requires HeadLen(k) <= c && CloseAt(t, c)
    ensures MatchPrefix(t).Some? && MatchPrefix(t).value.kind == k
    ensures MatchPrefix(t).value.bodyEnd <= c
  {
    KeywordUnique(t, k);
    SeparatorShape(t, HeadLen(k));
    var b := SeparatorEnd(t, HeadLen(k)).value;
    assert !IsSpace(t[c]);
    assert b <= c;
    FindCloseFirst(t, b);
  }

  /** A directive found in a text, at `start`. */
  datatype Match = Match(start: nat, span: Span) {
    function BodyStart(): nat { start + span.bodyStart }
    function BodyEnd(): nat { start + span.bodyEnd }
    function End(): nat { start + span.end }
  }

  predicate MatchedAt(s: string, m: Match) {
    m.start <= |s| && MatchPrefix(s[m.start..]) == Some(m.span)
  }

  /** A match found in `s` ends inside `s`, after its start. */
  lemma MatchInside(s: string, m: Match)
    requires MatchedAt(s, m)
    ensures m.start <= m.BodyStart() <= m.BodyEnd() && m.End() == m.BodyEnd() + 2 <= |s|
  {
  }

  /** `pattern.exec(s)` with `lastIndex == from`: the first position at or
      after `from` where a directive starts. */
  function FirstMatch(s: string, from: nat): (r: Option<Match>)
    requires from <= |s|
    ensures r.Some? ==> from <= r.value.start && MatchedAt(s, r.value)
    decreases |s| - from
  {
    match MatchPrefix(s[from..])
    case Some(sp) => Some(Match(from, sp))
    case None => if from == |s| then None else FirstMatch(s, from + 1)
  }

  /** Every directive from `from` on, as repeated `exec` calls find them:
      each search resumes where the previous match ended. */
  function MatchesFrom(s: string, from: nat): seq<Match>
    requires from <= |s|
    decreases |s| - from
  {
    match FirstMatch(s, from)
    case None => []
    case Some(m) =>
      MatchInside(s, m);
      [m] + MatchesFrom(s, m.End())
  }

  /** The matches lie inside the text, in order, and do not overlap. */
  lemma {:induction false} MatchesInOrder(s: string, from: nat)
    requires from <= |s|
    ensures forall k :: 0 <= k < |MatchesFrom(s, from)| ==>
              from <= MatchesFrom(s, from)[k].start < MatchesFrom(s, from)[k].End() <= |s|
    ensures forall k :: 0 <= k < |MatchesFrom(s, from)| - 1 ==>
              MatchesFrom(s, from)[k].End() <= MatchesFrom(s, from)[k + 1].start
    decreases |s| - from
  {
    var ms := MatchesFrom(s, from);
    match FirstMatch(s, from)
    case None =>
    case Some(m) =>
      MatchInside(s, m);
      MatchesInOrder(s, m.End());
      var rest := MatchesFrom(s, m.End());
      assert ms == [m] + rest;
      forall k | 0 <= k < |ms|
        ensures from <= ms[k].start < ms[k].End() <= |s|
      {
        if k > 0 {
          assert ms[k] == rest[k - 1];
        }
      }
      forall k | 0 <= k < |ms| - 1
        ensures ms[k].End() <= ms[k + 1].start
      {
        assert ms[k + 1] == rest[k];
        if k > 0 {
          assert ms[k] == rest[k - 1];
        }
      }
  }

  function Matches(s: string): seq<Match> {
    MatchesFrom(s, 0)
  }

  /** Each element of `MatchesFrom` is a directive of the text. */
  lemma {:induction false} MatchesFound(s: string, from: nat, k: nat)
    requires from <= |s| && k < |MatchesFrom(s, from)|
    ensures MatchedAt(s, MatchesFrom(s, from)[k])
    decreases |s| - from
  {
    var m := FirstMatch(s, from).value;
    MatchInside(s, m);
    if k > 0 {
      MatchesFound(s, m.End(), k - 1);
    }
  }

  /** A directive at `p` means the search from `from <= p` finds one no later than `p`. */
  lemma {:induction false} FirstMatchBefore(s: string, from: nat, p: nat)
    requires from <= p <= |s| && MatchPrefix(s[p..]).Some?
    ensures FirstMatch(s, from).Some? && FirstMatch(s, from).value.start <= p
    decreases p - from
  {
    if MatchPrefix(s[from..]).None? {
      FirstMatchBefore(s, from + 1, p);
    }
  }

  /** The search skips no directive: none starts between `from` and the
      match found, nor anywhere after `from` when none is found. */
  lemma {:induction false} FirstMatchSkipsNothing(s: string, from: nat, p: nat)
    requires from <= p <= |s|
    requires FirstMatch(s, from).None? || p < FirstMatch(s, from).value.start
    ensures MatchPrefix(s[p..]).None?
    decreases p - from
  {
    if from < p {
      assert MatchPrefix(s[from..]).None?;
      FirstMatchSkipsNothing(s, from + 1, p);
    }
  }

  /** No directive is skipped: every position where a directive could start
      lies inside one of the matches found. */
  lemma {:induction false} MatchesCover(s: string, from: nat, p: nat)
    requires from <= p <= |s| && MatchPrefix(s[p..]).Some?
    ensures exists k :: 0 <= k < |MatchesFrom(s, from)|
                        && MatchesFrom(s, from)[k].start <= p < MatchesFrom(s, from)[k].End()
    decreases |s| - from
  {
    FirstMatchBefore(s, from, p);
    var m := FirstMatch(s, from).value;
    MatchInside(s, m);
    var rest := MatchesFrom(s, m.End());
    var ms := MatchesFrom(s, from);
    assert ms == [m] + rest;
    if p >= m.End() {
      MatchesCover(s, m.End(), p);
      var k :| 0 <= k < |rest| && rest[k].start <= p < rest[k].End();
      assert ms[k + 1] == rest[k];
    } else {
      assert ms[0] == m;
    }
  }

  /** `s.replace(pattern, Placeholder)` from `from` on: every directive
      replaced, the text between them kept. */
  function ReplaceFrom(s: string, from: nat): string
    requires from <= |s|
    decreases |s| - from
  {
    match FirstMatch(s, from)
    case None => s[from..]
    case Some(m) =>
      MatchInside(s, m);
      s[from..m.start] + Placeholder + ReplaceFrom(s, m.End())
  }

  /** The text around the matches: before the first, between consecutive
      ones, and after the last. */
  function GapsFrom(s: string, from: nat): (g: seq<string>)
    requires from <= |s|
    ensures |g| == |MatchesFrom(s, from)| + 1
    decreases |s| - from
  {
    match FirstMatch(s, from)
    case None => [s[from..]]
    case Some(m) =>
      MatchInside(s, m);
      [s[from..m.start]] + GapsFrom(s, m.End())
  }

  /** `gaps[0] + fills[0] + gaps[1] + ... + fills[n-1] + gaps[n]`. */
  function Weave(gaps: seq<string>, fills: seq<string>): string
    requires |gaps| == |fills| + 1
    decreases |fills|
  {
    if |fills| == 0 then gaps[0] else gaps[0] + fills[0] + Weave(gaps[1..], fills[1..])
  }

  /** The text of each match, in order. */
  function TextsFrom(s: string, from: nat): (t: seq<string>)
    requires from <= |s|
    ensures |t| == |MatchesFrom(s, from)|
    decreases |s| - from
  {
    match FirstMatch(s, from)
    case None => []
    case Some(m) =>
      MatchInside(s, m);
      [s[m.start..m.End()]] + TextsFrom(s, m.End())
  }

  lemma WeaveCons(g: string, gaps: seq<string>, f: string, fills: seq<string>)
    requires |gaps| == |fills| + 1
    ensures Weave([g] + gaps, [f] + fills) == g + f + Weave(gaps, fills)
  {
    assert ([g] + gaps)[1..] == gaps && ([f] + fills)[1..] == fills;
  }

  /** The `k`-th text is the text of the `k`-th match. */
  lemma {:induction false} TextOfMatch(s: string, from: nat, k: nat)
    requires from <= |s| && k < |MatchesFrom(s, from)|
    ensures var m := MatchesFrom(s, from)[k];
      m.start <= m.End() <= |s| && TextsFrom(s, from)[k] == s[m.start..m.End()]
    decreases |s| - from
  {
    var m := FirstMatch(s, from).value;
    MatchInside(s, m);
    if k > 0 {
      TextOfMatch(s, m.End(), k - 1);
    }
  }

  /** `s[a..]` cut at `b` and `c`. */
  lemma ThreeParts(s: string, a: nat, b: nat, c: nat)
    requires a <= b <= c <= |s|
    ensures s[a..] == s[a..b] + s[b..c] + s[c..]
  {
  }

  /** The original text is the gaps woven with the directives found. */
  lemma {:induction false} SourceIsWoven(s: string, from: nat)
    requires from <= |s|
    ensures s[from..] == Weave(GapsFrom(s, from), TextsFrom(s, from))
    decreases |s| - from
  {
    match FirstMatch(s, from)
    case None =>
    case Some(m) =>
      MatchInside(s, m);
      SourceIsWoven(s, m.End());
      WeaveCons(s[from..m.start], GapsFrom(s, m.End()), s[m.start..m.End()], TextsFrom(s, m.End()));
      ThreeParts(s, from, m.start, m.End());
  }

  /** The replaced text is the same gaps woven with one placeholder per
      directive: only the directives change. */
  lemma {:induction false} ReplaceIsWoven(s: string, from: nat)
    requires from <= |s|
    ensures ReplaceFrom(s, from)
            == Weave(GapsFrom(s, from), seq(|MatchesFrom(s, from)|, _ => Placeholder))
    decreases |s| - from
  {
    match FirstMatch(s, from)
    case None =>
    case Some(m) =>
      MatchInside(s, m);
      ReplaceIsWoven(s, m.End());
      var n := |MatchesFrom(s, from)|;
      assert seq(n, _ => Placeholder)[1..] == seq(n - 1, _ => Placeholder);
  }

  /** The head of a directive holds no `[`. */
  lemma HeadHasNoBracket(k: ChartType, i: nat)
    requires i < |Open + TypeName(k)|
    ensures (Open + TypeName(k))[i] != '['
  {
    var h := Open + TypeName(k);
    match k
    case Line => assert h == "{{chart:line";
    case Bar => assert h == "{{chart:bar";
    case Column => assert h == "{{chart:column";
    case Pie => assert h == "{{chart:pie";
    case Area => assert h == "{{chart:area";
    case Scatter => assert h == "{{chart:scatter";
    case Timeseries => assert h == "{{chart:timeseries";
  }

  /** A replacement text that can neither start a directive nor end a
      directive's head: it opens with `[` and holds no `{`. */
  predicate Inert(ph: string) {
    |ph| > 0 && ph[0] == '[' && forall i :: 0 <= i < |ph| ==> ph[i] != '{'
  }

  lemma PlaceholderInert()
    ensures Inert(Placeholder)
  {
    assert '{' !in "[Chart " && '{' !in "visualization " && '{' !in "created - ";
    assert '{' !in "Check the " && '{' !in "workspace " && '{' !in "panel]";
  }

  /** The head facts of a directive found at the start of `t`. */
  lemma MatchHead(t: string)
    requires MatchPrefix(t).Some?
    ensures var r := MatchPrefix(t).value;
      && r.kind in PatternTypes && HasHead(t, r.kind)
      && HeadLen(r.kind) < r.bodyStart && CloseAt(t, r.bodyEnd)
  {
    KeywordInSpelled(t, PatternTypes);
  }

  /** A `[` in a text with a directive head lies after the head and the
      white-space character that follows it. */
  lemma HeadEndsBefore(t: string, k: ChartType, i: nat)
    requires HasHead(t, k) && i < |t| && t[i] == '['
    ensures HeadLen(k) < i
  {
    var w := Open + TypeName(k);
    forall j | 0 <= j < |w| ensures t[j] != '[' {
      assert t[j] == t[..|w|][j];
      HeadHasNoBracket(k, j);
    }
  }

  /** A head survives text appended after it. */
  lemma HeadExtends(a: string, b: string, k: ChartType)
    requires HasHead(a, k)
    ensures HasHead(a + b, k)
  {
    var w := Open + TypeName(k);
    assert (a + b)[..|w|] == a[..|w|];
    assert (a + b)[HeadLen(k)] == a[HeadLen(k)];
  }

  /** A head, with its white-space character, that lies within `a` is a head of `a`. */
  lemma HeadTrims(a: string, b: string, k: ChartType)
    requires HasHead(a + b, k) && HeadLen(k) < |a|
    ensures HasHead(a, k)
  {
    var w := Open + TypeName(k);
    assert (a + b)[..|w|] == a[..|w|];
    assert (a + b)[HeadLen(k)] == a[HeadLen(k)];
  }

  /** A directive that starts in `g`, in a text where `g` is followed by an
      inert text, has its whole head inside `g`: the head cannot run into
      the inert text, which begins with `[`. */
  lemma HeadInGap(g: string, ph: string, tail: string, p: nat)
    requires Inert(ph) && p < |g| && MatchPrefix((g + ph + tail)[p..]).Some?
    ensures var k := MatchPrefix((g + ph + tail)[p..]).value.kind;
      && k in PatternTypes && HeadLen(k) < |g| - p && HasHead(g[p..], k)
  {
    var t := (g + ph + tail)[p..];
    assert t == g[p..] + (ph + tail);
    MatchHead(t);
    var k := MatchPrefix(t).value.kind;
    assert t[|g| - p] == ph[0];
    HeadEndsBefore(t, k, |g| - p);
    HeadTrims(g[p..], ph + tail, k);
  }

  /** The body of a directive found at the start of `t` starts after its
      first character and is closed by `}}`. */
  lemma MatchBody(t: string)
    requires MatchPrefix(t).Some?
    ensures 0 < MatchPrefix(t).value.bodyStart && CloseAt(t, MatchPrefix(t).value.bodyEnd)
  {
  }

  /** The `}}` closing a match, in the coordinates of the whole text. */
  lemma MatchCloses(s: string, m: Match)
    requires MatchedAt(s, m)
    ensures m.start < m.BodyEnd() && CloseAt(s, m.BodyEnd())
  {
    MatchBody(s[m.start..]);
    assert s[m.start..][m.span.bodyEnd] == s[m.BodyEnd()];
    assert s[m.start..][m.span.bodyEnd + 1] == s[m.BodyEnd() + 1];
  }

  /** A head in `s[q..e]` followed, anywhere later, by `}}` starts a directive at `q`. */
  lemma HeadBeforeClose(s: string, q: nat, e: nat, c: nat, k: ChartType)
    requires q <= e <= c && CloseAt(s, c) && k in PatternTypes && HasHead(s[q..e], k)
    ensures MatchPrefix(s[q..]).Some?
  {
    var u := s[q..];
    assert u == s[q..e] + s[e..];
    HeadExtends(s[q..e], s[e..], k);
    assert u[c - q] == s[c] && u[c - q + 1] == s[c + 1];
    MatchWhenHead(u, k, c - q);
  }

  /** A directive that starts before the inert text replacing `m` has its
      head in the original text, before `m`. */
  lemma GapHeadInSource(s: string, from: nat, e: nat, ph: string, tail: string, p: nat) returns (k: ChartType)
    requires from + p < e <= |s|
    requires Inert(ph) && MatchPrefix((s[from..e] + ph + tail)[p..]).Some?
    ensures k in PatternTypes && HasHead(s[from + p..e], k)
  {
    HeadInGap(s[from..e], ph, tail, p);
    k := MatchPrefix((s[from..e] + ph + tail)[p..]).value.kind;
    assert s[from..e][p..] == s[from + p..e];
  }

  /** A head that lies wholly before a match starts a directive: the match's
      closing `}}` closes it. */
  lemma HeadInSource(s: string, q: nat, m: Match, k: ChartType)
    requires q <= m.start <= |s| && MatchedAt(s, m) && k in PatternTypes && HasHead(s[q..m.start], k)
    ensures MatchPrefix(s[q..]).Some?
  {
    MatchCloses(s, m);
    HeadBeforeClose(s, q, m.start, m.BodyEnd(), k);
  }

  /** No directive head lies wholly within `s[q..e]`. */
  predicate NoHeadIn(s: string, q: nat, e: nat)
    requires q <= e <= |s|
  {
    forall k :: k in PatternTypes ==> !HasHead(s[q..e], k)
  }

  /** Between `from` and the first match there is no directive head at all. */
  lemma NoHeadBeforeMatch(s: string, from: nat, m: Match, q: nat)
    requires from <= q <= |s| && FirstMatch(s, from) == Some(m) && q < m.start
    ensures NoHeadIn(s, q, m.start)
  {
    forall k | k in PatternTypes ensures !HasHead(s[q..m.start], k) {
      if HasHead(s[q..m.start], k) {
        HeadInSource(s, q, m, k);
        FirstMatchSkipsNothing(s, from, q);
        assert false;
      }
    }
  }

  /** No directive starts before an inert text that replaced the first match:
      its head would lie in the original text before that match. */
  lemma GapStartsNothing(s: string, from: nat, e: nat, ph: string, tail: string, p: nat)
    requires from + p < e <= |s| && NoHeadIn(s, from + p, e)
    requires Inert(ph)
    ensures MatchPrefix((s[from..e] + ph + tail)[p..]).None?
  {
    if MatchPrefix((s[from..e] + ph + tail)[p..]).Some? {
      var k := GapHeadInSource(s, from, e, ph, tail, p);
      assert false;
    }
  }

  /** Every directive opens with `{`. */
  lemma DirectiveOpensWithBrace(t: string)
    ensures MatchPrefix(t).Some? ==> |t| > 0 && t[0] == '{'
  {
    if MatchPrefix(t).Some? {
      MatchHead(t);
      var w := Open + TypeName(MatchPrefix(t).value.kind);
      assert t[0] == t[..|w|][0] == w[0];
    }
  }

  /** No directive starts inside an inert text, which holds no `{`. */
  lemma InertStartsNothing(r: string, ph: string, q: nat, p: nat)
    requires Inert(ph) && q <= p < q + |ph| <= |r| && r[q..q + |ph|] == ph
    ensures MatchPrefix(r[p..]).None?
  {
    assert r[p..][0] == r[q..q + |ph|][p - q];
    DirectiveOpensWithBrace(r[p..]);
  }

  /** After the last match, the text has no directive. */
  lemma RestStartsNothing(s: string, from: nat, p: nat)
    requires from <= |s| && FirstMatch(s, from).None? && p <= |s| - from
    ensures MatchPrefix(s[from..][p..]).None?
  {
    assert s[from..][p..] == s[from + p..];
    FirstMatchSkipsNothing(s, from, from + p);
  }

  /** A position of `g + Placeholder + tail` past `g` starts no directive
      when `tail` has none. */
  lemma AfterGapStartsNothing(g: string, ph: string, tail: string, p: nat)
    requires Inert(ph) && |g| <= p <= |g + ph + tail|
    requires forall q :: 0 <= q <= |tail| ==> MatchPrefix(tail[q..]).None?
    ensures MatchPrefix((g + ph + tail)[p..]).None?
  {
    var r := g + ph + tail;
    if p < |g| + |ph| {
      assert r[|g|..|g| + |ph|] == ph;
      InertStartsNothing(r, ph, |g|, p);
    } else {
      assert r[p..] == tail[p - |g| - |ph|..];
    }
  }

  /** No directive starts anywhere in the first gap, the placeholder after
      it, or a replaced rest that has none. */
  lemma ReplacedStartsNothing(s: string, from: nat, e: nat, tail: string, p: nat)
    requires from <= e <= |s| && p <= |s[from..e] + Placeholder + tail|
    requires p < e - from ==> NoHeadIn(s, from + p, e)
    requires forall q :: 0 <= q <= |tail| ==> MatchPrefix(tail[q..]).None?
    ensures MatchPrefix((s[from..e] + Placeholder + tail)[p..]).None?
  {
    PlaceholderInert();
    if p < e - from {
      GapStartsNothing(s, from, e, Placeholder, tail, p);
    } else {
      AfterGapStartsNothing(s[from..e], Placeholder, tail, p);
    }
  }

  /** The first gap, the placeholder and a rest without directives make a
      text without directives. */
  lemma ReplacedConsClean(s: string, from: nat, e: nat, tail: string)
    requires from <= e <= |s| && forall q :: from <= q < e ==> NoHeadIn(s, q, e)
    requires forall q :: 0 <= q <= |tail| ==> MatchPrefix(tail[q..]).None?
    ensures var r := s[from..e] + Placeholder + tail;
      forall p :: 0 <= p <= |r| ==> MatchPrefix(r[p..]).None?
  {
    var r := s[from..e] + Placeholder + tail;
    forall p | 0 <= p <= |r| ensures MatchPrefix(r[p..]).None? {
      ReplacedStartsNothing(s, from, e, tail, p);
    }
  }

  /** Between `from` and the first match no directive head lies anywhere. */
  lemma GapHasNoHeads(s: string, from: nat, m: Match)
    requires from <= |s| && FirstMatch(s, from) == Some(m)
    ensures m.start <= |s| && forall q :: from <= q < m.start ==> NoHeadIn(s, q, m.start)
  {
    forall q | from <= q < m.start ensures NoHeadIn(s, q, m.start) {
      NoHeadBeforeMatch(s, from, m, q);
    }
  }

  /** Replacing leaves no directive behind. */
  lemma {:induction false} ReplacedHasNoDirective(s: string, from: nat)
    requires from <= |s|
    ensures forall p :: 0 <= p <= |ReplaceFrom(s, from)| ==> MatchPrefix(ReplaceFrom(s, from)[p..]).None?
    decreases |s| - from
  {
    var r := ReplaceFrom(s, from);
    match FirstMatch(s, from)
    case None =>
      assert r == s[from..];
      forall p | 0 <= p <= |r| ensures MatchPrefix(r[p..]).None? {
        RestStartsNothing(s, from, p);
      }
    case Some(m) =>
      MatchInside(s, m);
      var g := s[from..m.start];
      var tail := ReplaceFrom(s, m.End());
      assert r == g + Placeholder + tail;
      ReplacedHasNoDirective(s, m.End());
      GapHasNoHeads(s, from, m);
      ReplacedConsClean(s, from, m.start, tail);
  }

  /** Replacing twice changes nothing more: the replaced text has no directive. */
  lemma ReplaceIdempotent(s: string)
    ensures Matches(ReplaceFrom(s, 0)) == []
    ensures ReplaceFrom(ReplaceFrom(s, 0), 0) == ReplaceFrom(s, 0)
  {
    var r := ReplaceFrom(s, 0);
    ReplacedHasNoDirective(s, 0);
    assert FirstMatch(r, 0).None?;
    assert r[0..] == r;
  }

  /** `timeseries` is not in the alternation: such a directive stays in the text. */
  lemma TimeseriesNotMatched(rest: string)
    ensures MatchPrefix("{{chart:timeseries" + rest).None?
  {
    var t := "{{chart:timeseries" + rest;
    assert t[8] == 't';
    forall i | 0 <= i < |PatternTypes| ensures !StartsWith(t, Open + TypeName(PatternTypes[i])) {
      InitialIsFirst(PatternTypes[i]);
    }
    KeywordInNone(t, PatternTypes);
  }

  /** A directive needs white space after its keyword: `{{chart:bar}}` is not one. */
  lemma KeywordNeedsSeparator(rest: string)
    ensures MatchPrefix("{{chart:bar}}" + rest).None?
  {
    var t := "{{chart:bar}}" + rest;
    assert t[..11] == "{{chart:bar";
    KeywordUnique(t, Bar);
    assert t[11] == '}';
  }
}
