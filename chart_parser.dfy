/** `ChartParserService`: every directive of a message becomes a chart, and
    the message shown to the user has each directive replaced by the
    placeholder. */
module ChartParser {
  import opened Wrappers
  import opened JsStrings
  import opened Charts
  import opened ChartPattern
  import opened ChartConfigParser

  /** The chart pushed for one directive: the given id, the matched keyword
      as its type, and the fields parsed from the directive's body. */
  function ChartOf(s: string, m: Match, id: string): (c: ChartConfig)
    requires MatchedAt(s, m)
    ensures c.id == id && c.chartType == m.span.kind && c.chartType in PatternTypes
    ensures StartsWith(s[m.start..], Open + TypeName(c.chartType))
  {
    MatchInside(s, m);
    MatchHead(s[m.start..]);
    var f := ConfigOf(s[m.BodyStart()..m.BodyEnd()]);
    ChartConfig(id, m.span.kind, f.title, f.xAxis, f.yAxis, f.data)
  }

  /** The directives from `from` on are the first one, then those after it. */
  lemma MatchesFromFirst(s: string, from: nat)
    requires from <= |s| && FirstMatch(s, from).Some?
    ensures FirstMatch(s, from).value.End() <= |s|
    ensures MatchesFrom(s, from) == [FirstMatch(s, from).value] + MatchesFrom(s, FirstMatch(s, from).value.End())
  {
    MatchInside(s, FirstMatch(s, from).value);
  }

  /** One more `exec`: the directives found so far plus those from `from`
      on are the directives found so far, the next one, and those after it. */
  lemma ScanStep(s: string, found: seq<Match>, from: nat)
    requires from <= |s| && FirstMatch(s, from).Some?
    ensures FirstMatch(s, from).value.End() <= |s|
    ensures found + MatchesFrom(s, from)
            == (found + [FirstMatch(s, from).value]) + MatchesFrom(s, FirstMatch(s, from).value.End())
  {
    MatchesFromFirst(s, from);
  }

  /** `cs[k]` is the chart of the directive `ms[k]`, which has id `ids(k)`. */
  predicate ChartsMatch(content: string, ms: seq<Match>, cs: seq<ChartConfig>, ids: nat -> string)
    decreases |ms|
  {
    |ms| == |cs|
    && (|ms| == 0
        || (ChartsMatch(content, ms[..|ms| - 1], cs[..|cs| - 1], ids)
            && MatchedAt(content, ms[|ms| - 1])
            && cs[|cs| - 1] == ChartOf(content, ms[|ms| - 1], ids(|ms| - 1))))
  }

  lemma {:induction false} ChartsMatchAt(content: string, ms: seq<Match>, cs: seq<ChartConfig>, ids: nat -> string, k: nat)
    requires ChartsMatch(content, ms, cs, ids) && k < |ms|
    ensures |cs| == |ms| && MatchedAt(content, ms[k]) && cs[k] == ChartOf(content, ms[k], ids(k))
    decreases |ms|
  {
    if k < |ms| - 1 {
      ChartsMatchAt(content, ms[..|ms| - 1], cs[..|cs| - 1], ids, k);
    }
  }

  lemma ChartsMatchAll(content: string, ms: seq<Match>, cs: seq<ChartConfig>, ids: nat -> string)
    requires ChartsMatch(content, ms, cs, ids)
    ensures |cs| == |ms|
    ensures forall k :: 0 <= k < |ms| ==> MatchedAt(content, ms[k]) && cs[k] == ChartOf(content, ms[k], ids(k))
  {
    forall k | 0 <= k < |ms|
      ensures MatchedAt(content, ms[k]) && cs[k] == ChartOf(content, ms[k], ids(k))
    {
      ChartsMatchAt(content, ms, cs, ids, k);
    }
  }

  /** When the search from `lastIndex` finds nothing, the matches found are
      all the matches, and the charts are theirs. */
  lemma ScanDone(content: string, ids: nat -> string, found: seq<Match>, charts: seq<ChartConfig>, lastIndex: nat)
    requires Scanned(content, ids, found, charts, lastIndex) && FirstMatch(content, lastIndex).None?
    ensures |charts| == |Matches(content)|
    ensures forall k :: 0 <= k < |charts| ==>
              MatchedAt(content, Matches(content)[k])
              && charts[k] == ChartOf(content, Matches(content)[k], ids(k))
  {
    assert MatchesFrom(content, lastIndex) == [];
    assert found + [] == found;
    ChartsMatchAll(content, found, charts, ids);
  }

  lemma ChartsMatchSnoc(content: string, ms: seq<Match>, cs: seq<ChartConfig>, ids: nat -> string, m: Match, c: ChartConfig)
    requires ChartsMatch(content, ms, cs, ids) && MatchedAt(content, m) && c == ChartOf(content, m, ids(|ms|))
    ensures ChartsMatch(content, ms + [m], cs + [c], ids)
  {
    var ms' := ms + [m];
    var cs' := cs + [c];
    assert ms'[..|ms'| - 1] == ms && ms'[|ms'| - 1] == m;
    assert cs'[..|cs'| - 1] == cs && cs'[|cs'| - 1] == c;
  }

  /** The body of `parseChartCommands`' loop for one match: the body text
      parsed by `parseChartConfig` and the chart built from it. */
  method ChartFor(content: string, m: Match, id: string) returns (chart: ChartConfig)
    requires MatchedAt(content, m)
    ensures chart == ChartOf(content, m, id)
  {
    MatchInside(content, m);
    var config := ParseChartConfig(content[m.BodyStart()..m.BodyEnd()]);
    chart := ChartConfig(id, m.span.kind, config.title, config.xAxis, config.yAxis, config.data);
  }

  /** The state of the scan once the search has reached `lastIndex`: the
      matches found so far and those from `lastIndex` on are all the matches
      of `content`, and each chart built so far is its match's. */
  predicate Scanned(content: string, ids: nat -> string, found: seq<Match>, charts: seq<ChartConfig>, lastIndex: nat) {
    lastIndex <= |content|
    && Matches(content) == found + MatchesFrom(content, lastIndex)
    && ChartsMatch(content, found, charts, ids)
  }

  /** One turn of the scan: the directive found at or after `lastIndex`
      joins the found ones, with its chart, and the scan resumes after it. */
  lemma ScanAdvance(content: string, ids: nat -> string, found: seq<Match>, charts: seq<ChartConfig>,
                    lastIndex: nat, chart: ChartConfig)
    requires Scanned(content, ids, found, charts, lastIndex) && FirstMatch(content, lastIndex).Some?
    requires chart == ChartOf(content, FirstMatch(content, lastIndex).value, ids(|charts|))
    ensures var m := FirstMatch(content, lastIndex).value;
            lastIndex < m.End() && Scanned(content, ids, found + [m], charts + [chart], m.End())
  {
    var m := FirstMatch(content, lastIndex).value;
    MatchInside(content, m);
    ScanStep(content, found, lastIndex);
    ChartsMatchSnoc(content, found, charts, ids, m, chart);
  }

  /** `parseChartCommands(content)`. The global pattern's `exec` resumes at
      `lastIndex`, which each match moves to its end; the loop stops at the
      first failed search. `ids(k)` stands for the id the `k`-th chart gets
      from the clock and the random generator. Nothing in the loop body can
      throw, so the `catch` never runs. */
  method ParseChartCommands(content: string, ids: nat -> string) returns (charts: seq<ChartConfig>)
    ensures |charts| == |Matches(content)|
    ensures forall k :: 0 <= k < |charts| ==>
              MatchedAt(content, Matches(content)[k])
              && charts[k] == ChartOf(content, Matches(content)[k], ids(k))
  {
    charts := [];
    var lastIndex := 0;
    ghost var found: seq<Match> := [];
    var next := FirstMatch(content, lastIndex);
    while next.Some?
      invariant Scanned(content, ids, found, charts, lastIndex) && next == FirstMatch(content, lastIndex)
      decreases |content| - lastIndex
    {
      var m := next.value;
      var chart := ChartFor(content, m, ids(|charts|));
      ScanAdvance(content, ids, found, charts, lastIndex, chart);
      charts := charts + [chart];
      found := found + [m];
      lastIndex := m.End();
      next := FirstMatch(content, lastIndex);
    }
    ScanDone(content, ids, found, charts, lastIndex);
  }

  /** `replaceChartCommands(content)`: the text between the directives kept
      as it is, one placeholder in place of each directive, and no directive
      left. */
  function ReplaceChartCommands(content: string): (r: string)
    ensures r == Weave(GapsFrom(content, 0), seq(|Matches(content)|, _ => Placeholder))
    ensures content == Weave(GapsFrom(content, 0), TextsFrom(content, 0))
    ensures Matches(r) == []
  {
    ReplaceIsWoven(content, 0);
    SourceIsWoven(content, 0);
    ReplaceIdempotent(content);
    ReplaceFrom(content, 0)
  }

  /** `processMessage(content)`: the charts and the cleaned text; processing
      the cleaned text again would find nothing. */
  method ProcessMessage(content: string, ids: nat -> string)
    returns (processedContent: string, extractedCharts: seq<ChartConfig>)
    ensures processedContent == ReplaceChartCommands(content)
    ensures |extractedCharts| == |Matches(content)|
    ensures forall k :: 0 <= k < |extractedCharts| ==>
              MatchedAt(content, Matches(content)[k])
              && extractedCharts[k] == ChartOf(content, Matches(content)[k], ids(k))
    ensures Matches(processedContent) == []
  {
    extractedCharts := ParseChartCommands(content, ids);
    processedContent := ReplaceChartCommands(content);
  }

  /** Processing an already processed message extracts no chart (the
      charts are one per match) and leaves its text as it is. */
  lemma ReprocessingIsInert(content: string)
    ensures Matches(ReplaceChartCommands(content)) == []
    ensures ReplaceChartCommands(ReplaceChartCommands(content)) == ReplaceChartCommands(content)
  {
    ReplaceIdempotent(content);
  }
}
