/** `parseChartConfig`: the body of one directive, read line by line into the
    fields of a chart. Ordinary lines are `key: value` pairs; a line reading
    `data: [` opens a block whose lines are gathered until one ends in `]`,
    and the gathered text is handed to `JSON.parse`. */
module ChartConfigParser {
  import opened Wrappers
  import opened JsStrings
  import opened Json
  import opened Charts

  // ---------------------------------------------------------------------
  // `text.replace(/(\w+):/g, '"$1":')`
  // ---------------------------------------------------------------------

  /** Length of the run of `\w` characters that starts `s`. */
  function WordRun(s: string): (n: nat)
    ensures n <= |s|
    ensures forall k :: 0 <= k < n ==> IsWordChar(s[k])
    ensures n == |s| || !IsWordChar(s[n])
  {
    if |s| == 0 || !IsWordChar(s[0]) then 0 else 1 + WordRun(s[1..])
  }

  /** The key-quoting rewrite applied before every `JSON.parse`. The regular
      expression, tried at the first character of a run of word characters,
      takes the whole run and succeeds exactly when `:` follows it; tried
      anywhere later in a run that failed, it meets the same character after
      the run and fails again. So each whole run directly followed by `:` is
      wrapped in double quotes, and nothing else changes. */
  function QuoteKeys(s: string): string
    decreases |s|
  {
    if |s| == 0 then ""
    else
      var n := WordRun(s);
      if n == 0 then [s[0]] + QuoteKeys(s[1..])
      else if n < |s| && s[n] == ':' then "\"" + s[..n] + "\":" + QuoteKeys(s[n + 1..])
      else s[..n] + QuoteKeys(s[n..])
  }

  /** `s` with every double quote deleted. */
  function Unquote(s: string): (r: string)
    ensures '"' !in r
  {
    if |s| == 0 then ""
    else (if s[0] == '"' then "" else [s[0]]) + Unquote(s[1..])
  }

  lemma {:induction false} UnquoteAppend(a: string, b: string)
    ensures Unquote(a + b) == Unquote(a) + Unquote(b)
  {
    if |a| == 0 {
      assert a + b == b;
    } else {
      var head := if a[0] == '"' then "" else [a[0]];
      assert (a + b)[0] == a[0];
      assert (a + b)[1..] == a[1..] + b;
      UnquoteAppend(a[1..], b);
      calc {
        Unquote(a + b);
        head + Unquote(a[1..] + b);
        head + (Unquote(a[1..]) + Unquote(b));
        (head + Unquote(a[1..])) + Unquote(b);
        Unquote(a) + Unquote(b);
      }
    }
  }

  /** Text without quotes survives quote deletion in front of anything. */
  lemma {:induction false} UnquotePlain(w: string, q: string)
    requires '"' !in w
    ensures Unquote(w + q) == w + Unquote(q)
  {
    UnquoteAppend(w, q);
    UnquoteKeepsPlain(w);
  }

  /** Deleting quotes from a quoted key and its colon leaves the key and colon. */
  lemma UnquoteQuoted(w: string, q: string)
    requires '"' !in w
    ensures Unquote("\"" + w + "\":" + q) == w + ":" + Unquote(q)
  {
    var c := ":" + q;
    var y := "\"" + c;
    var x := w + y;
    assert "\"" + w + "\":" + q == ['"'] + x;
    assert (['"'] + x)[0] == '"' && (['"'] + x)[1..] == x;
    assert Unquote(['"'] + x) == Unquote(x);
    UnquotePlain(w, y);
    assert y[0] == '"' && y[1..] == c;
    assert Unquote(y) == Unquote(c);
    assert c[0] == ':' && c[1..] == q;
    assert Unquote(c) == ":" + Unquote(q);
  }

  /** The rewrite only inserts double quotes: deleting all quotes from its
      output gives the same text as deleting them from its input. */
  lemma {:induction false} QuoteKeysOnlyAddsQuotes(s: string)
    ensures Unquote(QuoteKeys(s)) == Unquote(s)
    decreases |s|
  {
    if |s| > 0 {
      var n := WordRun(s);
      if n == 0 {
        QuoteKeysOnlyAddsQuotes(s[1..]);
        OtherCharKept(s);
      } else if n < |s| && s[n] == ':' {
        QuoteKeysOnlyAddsQuotes(s[n + 1..]);
        KeyRunQuoted(s, n);
      } else {
        QuoteKeysOnlyAddsQuotes(s[n..]);
        PlainRunKept(s, n);
      }
    }
  }

  lemma WordsHaveNoQuote(s: string, n: nat)
    requires n <= WordRun(s)
    ensures '"' !in s[..n]
  {
    forall k | 0 <= k < n ensures s[..n][k] != '"' {
      assert IsWordChar(s[k]);
    }
  }

  lemma OtherCharKept(s: string)
    requires |s| > 0 && WordRun(s) == 0
    requires Unquote(QuoteKeys(s[1..])) == Unquote(s[1..])
    ensures Unquote(QuoteKeys(s)) == Unquote(s)
  {
    assert QuoteKeys(s) == [s[0]] + QuoteKeys(s[1..]);
    UnquoteAppend([s[0]], QuoteKeys(s[1..]));
    UnquoteAppend([s[0]], s[1..]);
    assert s == [s[0]] + s[1..];
  }

  lemma KeyRunQuoted(s: string, n: nat)
    requires 0 < n < |s| && n == WordRun(s) && s[n] == ':'
    requires Unquote(QuoteKeys(s[n + 1..])) == Unquote(s[n + 1..])
    ensures Unquote(QuoteKeys(s)) == Unquote(s)
  {
    QuoteKeysAtKey(s, n);
    WordsHaveNoQuote(s, n);
    QuotedKeyUnquotes(s[..n], QuoteKeys(s[n + 1..]), s[n + 1..]);
    SplitAround(s, n);
  }

  lemma QuoteKeysAtKey(s: string, n: nat)
    requires 0 < n < |s| && n == WordRun(s) && s[n] == ':'
    ensures QuoteKeys(s) == "\"" + s[..n] + "\":" + QuoteKeys(s[n + 1..])
  {
  }

  lemma SplitAround(s: string, n: nat)
    requires n < |s| && s[n] == ':'
    ensures s == s[..n] + ":" + s[n + 1..]
  {
  }

  lemma QuotedKeyUnquotes(w: string, q: string, rest: string)
    requires '"' !in w
    requires Unquote(q) == Unquote(rest)
    ensures Unquote("\"" + w + "\":" + q) == Unquote(w + ":" + rest)
  {
    assert '"' !in w + ":";
    UnquoteQuoted(w, q);
    UnquotePlain(w + ":", rest);
  }

  lemma PlainRunKept(s: string, n: nat)
    requires 0 < n <= |s| && n == WordRun(s) && (n == |s| || s[n] != ':')
    requires Unquote(QuoteKeys(s[n..])) == Unquote(s[n..])
    ensures Unquote(QuoteKeys(s)) == Unquote(s)
  {
    QuoteKeysAtRun(s, n);
    WordsHaveNoQuote(s, n);
    PlainRunUnquotes(s[..n], QuoteKeys(s[n..]), s[n..]);
    Halves(s, n);
  }

  lemma Halves(s: string, n: nat)
    requires n <= |s|
    ensures s == s[..n] + s[n..]
  {
  }

  lemma QuoteKeysAtRun(s: string, n: nat)
    requires 0 < n <= |s| && n == WordRun(s) && (n == |s| || s[n] != ':')
    ensures QuoteKeys(s) == s[..n] + QuoteKeys(s[n..])
  {
  }

  lemma PlainRunUnquotes(w: string, q: string, rest: string)
    requires '"' !in w
    requires Unquote(q) == Unquote(rest)
    ensures Unquote(w + q) == Unquote(w + rest)
  {
    UnquotePlain(w, q);
    UnquotePlain(w, rest);
  }

  lemma {:induction false} UnquoteKeepsPlain(s: string)
    requires '"' !in s
    ensures Unquote(s) == s
  {
    if |s| > 0 {
      assert '"' !in s[1..];
      UnquoteKeepsPlain(s[1..]);
    }
  }

  /** Text without a colon passes through the rewrite unchanged. */
  lemma {:induction false} QuoteKeysWithoutColon(s: string)
    requires ':' !in s
    ensures QuoteKeys(s) == s
    decreases |s|
  {
    if |s| > 0 {
      var n := WordRun(s);
      if n == 0 {
        assert ':' !in s[1..];
        QuoteKeysWithoutColon(s[1..]);
      } else {
        assert n < |s| ==> s[n] != ':';
        assert ':' !in s[n..];
        QuoteKeysWithoutColon(s[n..]);
      }
    }
  }

  // ---------------------------------------------------------------------
  // The data block and the categories, after `JSON.parse`
  // ---------------------------------------------------------------------

  /** `item[key]` of a parsed object. */
  function Lookup(members: seq<(string, Json)>, key: string): Prop {
    match Get(members, key)
    case None => Undefined
    case Some(v) => Defined(v)
  }

  /** `{ name: item.name, values: item.values }` for one parsed item: `null`
      has no properties and throws; an array has no `name` but inherits the
      `values` method; strings, numbers and booleans have neither. */
  function ItemData(item: Json): (r: Option<ChartData>)
    ensures r.None? <==> item.JNull?
  {
    match item
    case JNull => None
    case JObject(ms) => Some(ChartData(Lookup(ms, "name"), Lookup(ms, "values")))
    case JArray(_) => Some(ChartData(Undefined, ArrayValuesMethod))
    case _ => Some(ChartData(Undefined, Undefined))
  }

  /** `items.map(...)`: one entry per item, in order, or a failure as soon as
      one item is `null`. */
  function MapItems(items: seq<Json>): (r: Option<seq<ChartData>>)
    ensures r.Some? <==> forall k :: 0 <= k < |items| ==> !items[k].JNull?
    ensures r.Some? ==> |r.value| == |items|
    ensures r.Some? ==> forall k :: 0 <= k < |items| ==> ItemData(items[k]) == Some(r.value[k])
  {
    if |items| == 0 then Some([])
    else if items[0].JNull? then None
    else
      match MapItems(items[1..])
      case None => None
      case Some(ds) =>
        assert forall k :: 1 <= k < |items| ==> items[k] == items[1..][k - 1];
        Some([ItemData(items[0]).value] + ds)
  }

  /** The data block: rewritten, parsed, and mapped; `None` where the source
      throws (a syntax error, a value without `map`, a `null` item) and the
      catch leaves `data` as it was. */
  function ParseData(block: string): Option<seq<ChartData>> {
    match Parse(QuoteKeys(block))
    case Some(JArray(items)) => MapItems(items)
    case _ => None
  }

  /** The text handed to `JSON.parse` for `categories: value`: the value
      itself when it is already bracketed, the value in brackets otherwise. */
  function CategoriesText(value: string): (r: string)
    ensures StartsWith(r, "[") && EndsWith(r, "]")
    ensures r == value <==> StartsWith(value, "[") && EndsWith(value, "]")
    ensures r != value ==> r == "[" + value + "]"
  {
    if StartsWith(value, "[") && EndsWith(value, "]") then value else "[" + value + "]"
  }

  function ParseCategories(value: string): Option<Json> {
    Parse(QuoteKeys(CategoriesText(value)))
  }

  // ---------------------------------------------------------------------
  // The line machine
  // ---------------------------------------------------------------------

  /** The `Partial<ChartConfig>` the parser returns. */
  datatype Fields = Fields(title: string, xAxis: XAxis, yAxis: YAxis, data: seq<ChartData>)

  /** The initial object: empty titles, no categories, no data. */
  const Defaults: Fields := Fields("", XAxis("", None), YAxis(""), [])

  /** The loop's variables: the object built so far, `inDataBlock` and
      `currentDataBlock`. */
  datatype LineState = LineState(fields: Fields, inData: bool, buffer: string)

  const Start: LineState := LineState(Defaults, false, "")

  /** A trimmed line that opens a data block. */
  predicate IsOpener(t: string) {
    t == "data: [" || t == "data:["
  }

  /** `t.split(':', 2)` with both parts trimmed: the text before the first
      colon and the text between the first and the second. */
  function KeyValue(t: string): (string, string)
    requires ':' in t
  {
    SplitAtLeastTwo(t, ':');
    var parts := Split(t, ':');
    (Trim(parts[0]), Trim(parts[1]))
  }

  /** The effect of one `key: value` line on the object. */
  function SetKey(f: Fields, key: string, value: string): Fields {
    if key == "title" then f.(title := value)
    else if key == "xAxis" then f.(xAxis := f.xAxis.(title := value))
    else if key == "yAxis" then f.(yAxis := f.yAxis.(title := value))
    else if key == "categories" then
      match ParseCategories(value)
      case None => f
      case Some(c) => f.(xAxis := f.xAxis.(categories := Some(c)))
    else f
  }

  /** The outcome of a closed data block: the parsed data, or the object
      unchanged when parsing threw. */
  function WithData(f: Fields, parsed: Option<seq<ChartData>>): Fields {
    match parsed
    case None => f
    case Some(d) => f.(data := d)
  }

  /** One iteration of the loop, on the trimmed line `t`. A line in a data
      block is appended whether or not it ends in `]`, so both branches of
      the source's `endsWith(']') ? trimmedLine : ']'` append the line
      itself; `':' in t` is `t.includes(':')` (lemma `ContainsChar`). */
  function Step(st: LineState, t: string): LineState {
    if t == "" then st
    else if IsOpener(t) then st.(inData := true, buffer := "[")
    else if st.inData then DataLine(st, t)
    else if ':' in t then KeyLine(st, t)
    else st
  }

  /** A line inside a data block: the closing line ends the block and parses
      it, any other line is appended. */
  function DataLine(st: LineState, t: string): LineState {
    if EndsWith(t, "]") then
      var block := st.buffer + t;
      LineState(WithData(st.fields, ParseData(block)), false, block)
    else st.(buffer := st.buffer + t)
  }

  /** A `key: value` line outside a data block. */
  function KeyLine(st: LineState, t: string): LineState
    requires ':' in t
  {
    var kv := KeyValue(t);
    st.(fields := SetKey(st.fields, kv.0, kv.1))
  }

  /** The state after the given trimmed lines, from `st`. */
  function RunFrom(st: LineState, ts: seq<string>): LineState {
    if |ts| == 0 then st
    else Step(RunFrom(st, ts[..|ts| - 1]), ts[|ts| - 1])
  }

  /** Each line of a body, trimmed. */
  function TrimmedLines(text: string): seq<string> {
    var lines := Split(text, '\n');
    seq(|lines|, k requires 0 <= k < |lines| => Trim(lines[k]))
  }

  /** What `parseChartConfig` returns for a body. */
  function ConfigOf(text: string): Fields {
    RunFrom(Start, TrimmedLines(text)).fields
  }

  /** `parseChartConfig(configText, chartType)`; the chart type is not read. */
  method ParseChartConfig(configText: string) returns (config: Fields)
    ensures config == ConfigOf(configText)
  {
    var lines := Split(configText, '\n');
    ghost var ts := TrimmedLines(configText);
    config := Defaults;
    var inDataBlock := false;
    var currentDataBlock := "";
    for i := 0 to |lines|
      invariant RunFrom(Start, ts[..i]) == LineState(config, inDataBlock, currentDataBlock)
    {
      var trimmedLine := Trim(lines[i]);
      assert ts[..i + 1] == ts[..i] + [trimmedLine];
      config, inDataBlock, currentDataBlock := ReadLine(config, inDataBlock, currentDataBlock, trimmedLine);
    }
    assert ts[..|ts|] == ts;
  }

  /** The body of the loop over the lines, on the loop's variables and the
      trimmed line. */
  method ReadLine(config: Fields, inDataBlock: bool, currentDataBlock: string, trimmedLine: string)
    returns (config': Fields, inDataBlock': bool, currentDataBlock': string)
    ensures LineState(config', inDataBlock', currentDataBlock')
            == Step(LineState(config, inDataBlock, currentDataBlock), trimmedLine)
  {
    config', inDataBlock', currentDataBlock' := config, inDataBlock, currentDataBlock;
    if trimmedLine == "" {
      // an empty line is skipped
    } else if trimmedLine == "data: [" || trimmedLine == "data:[" {
      inDataBlock' := true;
      currentDataBlock' := "[";
    } else if inDataBlock {
      if EndsWith(trimmedLine, "]") {
        inDataBlock' := false;
        currentDataBlock' := currentDataBlock + trimmedLine;
        var parsed := ParseData(currentDataBlock');
        if parsed.Some? {
          config' := config.(data := parsed.value);
        }
      } else {
        currentDataBlock' := currentDataBlock + trimmedLine;
      }
    } else if ':' in trimmedLine {
      var kv := KeyValue(trimmedLine);
      var key, value := kv.0, kv.1;
      if key == "title" {
        config' := config.(title := value);
      } else if key == "xAxis" {
        config' := config.(xAxis := config.xAxis.(title := value));
      } else if key == "yAxis" {
        config' := config.(yAxis := config.yAxis.(title := value));
      } else if key == "categories" {
        var categories := ParseCategories(value);
        if categories.Some? {
          config' := config.(xAxis := config.xAxis.(categories := categories));
        }
      }
    }
  }

  // ---------------------------------------------------------------------
  // Properties
  // ---------------------------------------------------------------------

  /** Running two stretches of lines is running their concatenation. */
  lemma {:induction false} RunFromAppend(st: LineState, a: seq<string>, b: seq<string>)
    ensures RunFrom(st, a + b) == RunFrom(RunFrom(st, a), b)
    decreases |b|
  {
    if |b| == 0 {
      assert a + b == a;
    } else {
      var ab := a + b;
      assert ab[..|ab| - 1] == a + b[..|b| - 1];
      assert ab[|ab| - 1] == b[|b| - 1];
      RunFromAppend(st, a, b[..|b| - 1]);
    }
  }

  /** The machine is in a data block after a line exactly when the line opens
      one, or a block was open and the line does not end in `]`. */
  lemma StepMode(st: LineState, t: string)
    ensures Step(st, t).inData <==> IsOpener(t) || (st.inData && !EndsWith(t, "]"))
  {
  }

  lemma {:induction false} NoColonInPieces(parts: seq<string>, sep: char)
    requires |parts| >= 1 && ':' !in Join(parts, sep)
    ensures forall k :: 0 <= k < |parts| ==> ':' !in parts[k]
  {
    if |parts| > 1 {
      assert Join(parts, sep) == parts[0] + [sep] + Join(parts[1..], sep);
      NoColonInPieces(parts[1..], sep);
      assert forall k :: 1 <= k < |parts| ==> parts[k] == parts[1..][k - 1];
    }
  }

  lemma TrimKeeps(line: string, c: char)
    requires c !in line
    ensures c !in Trim(line)
  {
    TrimShape(line);
  }

  lemma {:induction false} RunWithoutColon(ts: seq<string>)
    requires forall k :: 0 <= k < |ts| ==> ':' !in ts[k]
    ensures RunFrom(Start, ts) == Start
  {
    if |ts| > 0 {
      RunWithoutColon(ts[..|ts| - 1]);
      assert "data: ["[4] == ':' && "data:["[4] == ':';
      assert !IsOpener(ts[|ts| - 1]);
    }
  }

  /** A body without a colon yields the defaults: empty titles, no
      categories, no data. */
  lemma NoColonKeepsDefaults(text: string)
    requires ':' !in text
    ensures ConfigOf(text) == Defaults
  {
    var lines := Split(text, '\n');
    NoColonInPieces(lines, '\n');
    var ts := TrimmedLines(text);
    forall k | 0 <= k < |ts| ensures ':' !in ts[k] {
      TrimKeeps(lines[k], ':');
    }
    RunWithoutColon(ts);
  }

  /** Keys other than `title`, `xAxis`, `yAxis` and `categories` are ignored. */
  lemma OtherKeysIgnored(f: Fields, key: string, value: string)
    requires key != "title" && key != "xAxis" && key != "yAxis" && key != "categories"
    ensures SetKey(f, key, value) == f
  {
  }

  /** A later line for the same key overwrites the earlier one (for
      `categories`, when the later value parses). */
  lemma LaterKeyOverwrites(f: Fields, key: string, v1: string, v2: string)
    requires key == "title" || key == "xAxis" || key == "yAxis"
             || (key == "categories" && ParseCategories(v2).Some?)
    ensures SetKey(SetKey(f, key, v1), key, v2) == SetKey(f, key, v2)
  {
  }

  /** `split(':', 2)`: the key is the trimmed text before the first colon and
      the value the trimmed text between the first and the second; whatever
      follows a second colon is dropped. */
  lemma KeyValueSplit(a: string, b: string, w: string)
    requires ':' !in a && ':' !in b
    ensures KeyValue(a + ":" + b) == (Trim(a), Trim(b))
    ensures KeyValue(a + ":" + b + ":" + w) == (Trim(a), Trim(b))
  {
    KeyValueOne(a, b);
    KeyValueTwo(a, b, w);
  }

  lemma KeyValueOne(a: string, b: string)
    requires ':' !in a && ':' !in b
    ensures KeyValue(a + ":" + b) == (Trim(a), Trim(b))
  {
    var t := a + [':'] + b;
    assert a + ":" + b == t;
    SplitCons(a, ':', b);
    SplitNoSep(b, ':');
    assert Split(t, ':') == [a, b];
  }

  lemma KeyValueTwo(a: string, b: string, w: string)
    requires ':' !in a && ':' !in b
    ensures KeyValue(a + ":" + b + ":" + w) == (Trim(a), Trim(b))
  {
    var r := b + [':'] + w;
    var t := a + [':'] + r;
    assert a + ":" + b + ":" + w == t;
    SplitCons(a, ':', r);
    SplitCons(b, ':', w);
    assert Split(t, ':')[..2] == [a, b];
  }

  /** A line `title: A: B` sets the title to `A` only. */
  lemma TitleStopsAtSecondColon(st: LineState)
    requires !st.inData
    ensures Step(st, "title: A: B").fields == st.fields.(title := "A")
  {
    TitleExampleSplits();
    TitleExampleIsKeyLine(st);
  }

  lemma TitleExampleSplits()
    ensures KeyValue("title: A: B") == ("title", "A")
  {
    assert "title: A: B" == "title" + ":" + " A" + ":" + " B";
    KeyValueTwo("title", " A", " B");
    TitleExampleTrims();
  }

  lemma TitleExampleTrims()
    ensures Trim(" A") == "A" && Trim("title") == "title"
  {
    assert IsSpace(" A"[0]) && " A"[1..] == "A";
  }

  lemma TitleExampleIsKeyLine(st: LineState)
    requires !st.inData
    ensures Step(st, "title: A: B") == KeyLine(st, "title: A: B")
  {
    assert "title: A: B"[5] == ':';
  }

  /** A one-line `data: [...]` is an ordinary line whose key is `data`, and
      is ignored. */
  lemma OneLineDataIgnored(st: LineState, t: string)
    requires !st.inData && StartsWith(t, "data:") && !IsOpener(t)
    ensures Step(st, t) == st
  {
    DataKey(t);
    assert Step(st, t) == KeyLine(st, t);
  }

  lemma DataKey(t: string)
    requires StartsWith(t, "data:")
    ensures ':' in t && KeyValue(t).0 == "data"
  {
    DataPrefix(t);
    WordKeyNoColon();
    SplitCons("data", ':', t[5..]);
  }

  lemma DataPrefix(t: string)
    requires StartsWith(t, "data:")
    ensures t == "data" + [':'] + t[5..] && t[4] == ':'
  {
    assert t[..5] == "data:";
  }

  lemma WordKeyNoColon()
    ensures ':' !in "data" && Trim("data") == "data"
  {
  }

  /** Inside an open block, lines that neither close nor reopen it are
      appended to the buffer and nothing else changes. */
  lemma {:induction false} DataLinesGather(st: LineState, mids: seq<string>)
    requires st.inData
    requires forall k :: 0 <= k < |mids| ==> !IsOpener(mids[k]) && !EndsWith(mids[k], "]")
    ensures RunFrom(st, mids) == st.(buffer := st.buffer + Concat(mids))
  {
    if |mids| > 0 {
      var init := mids[..|mids| - 1];
      DataLinesGather(st, init);
      assert st.buffer + Concat(mids) == (st.buffer + Concat(init)) + mids[|mids| - 1];
    }
  }

  /** A block opened by `data: [` and closed by the first later line ending in
      `]`: the buffer is `[`, the lines in between and the closing line,
      concatenated; `data` becomes its parsed value, or stays as it was when
      parsing fails; and the block is closed. */
  lemma DataBlockRun(st: LineState, opener: string, mids: seq<string>, close: string)
    requires IsOpener(opener)
    requires forall k :: 0 <= k < |mids| ==> !IsOpener(mids[k]) && !EndsWith(mids[k], "]")
    requires EndsWith(close, "]")
    ensures var after := RunFrom(st, [opener] + mids + [close]);
            !after.inData && after.buffer == "[" + Concat(mids) + close
            && after.fields == WithData(st.fields, ParseData("[" + Concat(mids) + close))
  {
    RunFromAppend(st, [opener] + mids, [close]);
    RunFromAppend(st, [opener], mids);
    assert RunFrom(st, [opener]) == st.(inData := true, buffer := "[") by {
      assert [opener][..0] == [];
    }
    DataLinesGather(st.(inData := true, buffer := "["), mids);
    assert RunFrom(RunFrom(st, [opener] + mids), [close]) == Step(RunFrom(st, [opener] + mids), close) by {
      assert [close][..0] == [];
    }
    assert close[|close| - 1] == ']';
    assert !IsOpener(close);
  }

  /** A block that is never closed leaves the fields as they were. */
  lemma UnclosedBlockIgnored(st: LineState, opener: string, mids: seq<string>)
    requires IsOpener(opener)
    requires forall k :: 0 <= k < |mids| ==> !IsOpener(mids[k]) && !EndsWith(mids[k], "]")
    ensures RunFrom(st, [opener] + mids).fields == st.fields
  {
    RunFromAppend(st, [opener], mids);
    assert RunFrom(st, [opener]) == st.(inData := true, buffer := "[") by {
      assert [opener][..0] == [];
    }
    DataLinesGather(st.(inData := true, buffer := "["), mids);
  }

  /** Category names must be JSON strings: bare words do not parse and leave
      `xAxis.categories` unset. */
  lemma BareCategoriesRejected()
    ensures ParseCategories("Q1, Q2").None?
  {
    assert CategoriesText("Q1, Q2") == "[Q1, Q2]";
    QuoteKeysWithoutColon("[Q1, Q2]");
    BareWordsDoNotParse();
  }

  lemma BareWordsDoNotParse()
    ensures Parse("[Q1, Q2]").None?
  {
    var s := "[Q1, Q2]";
    assert ParseValue(s, 1).None? by {
      assert s[1] == 'Q';
    }
    assert ParseValue(s, 0).None? by {
      assert s[0] == '[' && s[1] == 'Q';
      assert SkipSpace(s, 1) == 1;
    }
    assert SkipSpace(s, 0) == 0;
  }

  /** A colon right after a word inside a category string is taken for a
      key and quoted, which breaks the JSON: `categories: ["Q1:"]` leaves the
      categories unset. */
  lemma ColonInCategoryRejected()
    ensures ParseCategories("[\"Q1:\"]").None?
  {
    var v := "[\"Q1:\"]";
    assert CategoriesText(v) == v by {
      assert v[0] == '[' && v[|v| - 1] == ']';
    }
    ColonCategoryQuoted();
    ColonCategoryDoesNotParse();
  }

  /** The rewrite of `["Q1:"]` is `[""Q1":"]`. */
  lemma ColonCategoryQuoted()
    ensures QuoteKeys("[\"Q1:\"]") == "[\"\"Q1\":\"]"
  {
    ColonStringQuoted();
    var u := "[\"Q1:\"]";
    assert u[1..] == "\"Q1:\"]";
    OtherCharCopied(u);
  }

  lemma ColonStringQuoted()
    ensures QuoteKeys("\"Q1:\"]") == "\"\"Q1\":\"]"
  {
    ColonKeyQuoted();
    var u := "\"Q1:\"]";
    assert u[1..] == "Q1:\"]";
    OtherCharCopied(u);
  }

  /** A character outside `\w` is copied. */
  lemma OtherCharCopied(s: string)
    requires |s| > 0 && !IsWordChar(s[0])
    ensures QuoteKeys(s) == [s[0]] + QuoteKeys(s[1..])
  {
  }

  lemma ColonKeyQuoted()
    ensures QuoteKeys("Q1:\"]") == "\"Q1\":\"]"
  {
    var t := "Q1:\"]";
    assert WordRun(t) == 2 by {
      assert IsWordChar(t[0]) && IsWordChar(t[1]) && !IsWordChar(t[2]);
    }
    QuoteKeysAtKey(t, 2);
    assert t[..2] == "Q1" && t[3..] == "\"]";
    QuoteKeysWithoutColon("\"]");
  }

  /** `[""Q1":"]`: an empty string followed by `Q` where `,` or `]` is due. */
  lemma ColonCategoryDoesNotParse()
    ensures Parse("[\"\"Q1\":\"]").None?
  {
    var q := "[\"\"Q1\":\"]";
    assert ParseValue(q, 1) == Some((JString([]), 3)) by {
      assert q[1] == '"' && q[2] == '"';
      assert ParseChars(q, 2, []) == Some(([], 3));
    }
    assert ParseElements(q, 1, []).None? by {
      assert q[3] == 'Q';
      assert SkipSpace(q, 3) == 3;
    }
    assert ParseValue(q, 0).None? by {
      assert q[0] == '[' && q[1] == '"';
      assert SkipSpace(q, 1) == 1;
    }
    assert SkipSpace(q, 0) == 0;
  }

  /** Quoted category names parse. */
  lemma QuotedCategoriesAccepted()
    ensures ParseCategories("\"Q1\"") == Some(JArray([JString("Q1")]))
  {
    var s := "[\"Q1\"]";
    assert CategoriesText("\"Q1\"") == s;
    QuoteKeysWithoutColon(s);
    QuotedNameParses();
  }

  lemma QuotedNameParses()
    ensures Parse("[\"Q1\"]") == Some(JArray([JString("Q1")]))
  {
    var s := "[\"Q1\"]";
    assert ParseValue(s, 1) == Some((JString("Q1"), 5)) by {
      QuotedNameChars();
    }
    assert ParseElements(s, 1, []) == Some((JArray([JString("Q1")]), 6)) by {
      assert s[5] == ']' && SkipSpace(s, 5) == 5;
      assert [] + [JString("Q1")] == [JString("Q1")];
    }
    assert ParseValue(s, 0) == Some((JArray([JString("Q1")]), 6)) by {
      assert s[0] == '[' && s[1] == '"';
      assert SkipSpace(s, 1) == 1;
    }
    assert SkipSpace(s, 0) == 0 && SkipSpace(s, 6) == 6;
  }

  lemma QuotedNameChars()
    ensures ParseChars("[\"Q1\"]", 2, []) == Some(("Q1", 5))
  {
    var s := "[\"Q1\"]";
    assert s[2] == 'Q' && s[3] == '1' && s[4] == '"';
    assert ParseChars(s, 4, "Q1") == Some(("Q1", 5));
    assert [] + [s[2]] == "Q" && "Q" + [s[3]] == "Q1";
    assert ParseChars(s, 3, "Q") == Some(("Q1", 5));
  }
}
