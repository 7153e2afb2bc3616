/** `JSON.parse`, as the chart parser uses it: a recursive-descent parser of
    the JSON grammar (ECMA-404) that either yields a value or fails where
    `JSON.parse` throws a `SyntaxError`. Numbers are kept exactly as decimals
    rather than rounded to doubles. */
module Json {
  import opened Wrappers

  /** `mantissa * 10^exponent`. */
  datatype Decimal = Decimal(mantissa: int, exponent: int)

  datatype Json =
    | JNull
    | JBool(b: bool)
    | JNumber(n: Decimal)
    | JString(str: string)
    | JArray(items: seq<Json>)
    | JObject(members: seq<(string, Json)>)

  /** Index of the last member named `key`. */
  function LastIndex(members: seq<(string, Json)>, key: string): (r: Option<nat>)
    ensures r.Some? ==> r.value < |members| && members[r.value].0 == key
    ensures r.Some? ==> forall m :: r.value < m < |members| ==> members[m].0 != key
    ensures r.None? ==> forall k :: 0 <= k < |members| ==> members[k].0 != key
  {
    if |members| == 0 then None
    else if members[|members| - 1].0 == key then Some(|members| - 1)
    else LastIndex(members[..|members| - 1], key)
  }

  /** The property `key` of a parsed object: when a key is repeated,
      `JSON.parse` keeps the last occurrence. */
  function Get(members: seq<(string, Json)>, key: string): Option<Json> {
    match LastIndex(members, key)
    case None => None
    case Some(k) => Some(members[k].1)
  }

  predicate IsJsonSpace(c: char) {
    c == ' ' || c == '\t' || c == '\n' || c == '\r'
  }

  predicate IsDigit(c: char) {
    '0' <= c <= '9'
  }

  function SkipSpace(s: string, i: nat): (j: nat)
    requires i <= |s|
    ensures i <= j <= |s|
    ensures forall k :: i <= k < j ==> IsJsonSpace(s[k])
    ensures j == |s| || !IsJsonSpace(s[j])
    decreases |s| - i
  {
    if i < |s| && IsJsonSpace(s[i]) then SkipSpace(s, i + 1) else i
  }

  /** End of the run of digits that starts at `i`. */
  function DigitsEnd(s: string, i: nat): (j: nat)
    requires i <= |s|
    ensures i <= j <= |s|
    ensures forall k :: i <= k < j ==> IsDigit(s[k])
    ensures j == |s| || !IsDigit(s[j])
    decreases |s| - i
  {
    if i < |s| && IsDigit(s[i]) then DigitsEnd(s, i + 1) else i
  }

  function DigitsValue(d: string): nat
    requires forall k :: 0 <= k < |d| ==> IsDigit(d[k])
  {
    if |d| == 0 then 0
    else
      assert IsDigit(d[|d| - 1]);
      10 * DigitsValue(d[..|d| - 1]) + ((d[|d| - 1] as int) - ('0' as int))
  }

  lemma DigitsJoin(x: string, y: string)
    requires forall k :: 0 <= k < |x| ==> IsDigit(x[k])
    requires forall k :: 0 <= k < |y| ==> IsDigit(y[k])
    ensures forall k :: 0 <= k < |x + y| ==> IsDigit((x + y)[k])
  {
  }

  predicate IsHexDigit(c: char) {
    IsDigit(c) || ('a' <= c <= 'f') || ('A' <= c <= 'F')
  }

  function HexValue(c: char): nat
    requires IsHexDigit(c)
  {
    if IsDigit(c) then (c as int) - ('0' as int)
    else if 'a' <= c <= 'f' then (c as int) - ('a' as int) + 10
    else (c as int) - ('A' as int) + 10
  }

  /** The character a one-letter escape `\e` stands for. */
  function SimpleEscape(e: char): Option<char> {
    match e
    case '"' => Some('"')
    case '\\' => Some('\\')
    case '/' => Some('/')
    case 'b' => Some('\U{0008}')
    case 'f' => Some('\U{000C}')
    case 'n' => Some('\n')
    case 'r' => Some('\r')
    case 't' => Some('\t')
    case _ => None
  }

  /** The characters of a string literal from `i` (just after the opening
      quote) to the closing quote, with the position after that quote. */
  function ParseChars(s: string, i: nat, acc: string): (r: Option<(string, nat)>)
    requires i <= |s|
    ensures r.Some? ==> i < r.value.1 <= |s|
    decreases |s| - i
  {
    if i == |s| then None
    else if s[i] == '"' then Some((acc, i + 1))
    else if s[i] < ' ' then None
    else if s[i] != '\\' then ParseChars(s, i + 1, acc + [s[i]])
    else if i + 1 == |s| then None
    else if s[i + 1] != 'u' then
      match SimpleEscape(s[i + 1])
      case None => None
      case Some(c) => ParseChars(s, i + 2, acc + [c])
    else if i + 6 <= |s| && forall k :: i + 2 <= k < i + 6 ==> IsHexDigit(s[k]) then
      var code := 4096 * HexValue(s[i + 2]) + 256 * HexValue(s[i + 3])
                  + 16 * HexValue(s[i + 4]) + HexValue(s[i + 5]);
      if 0xD800 <= code < 0xE000 then None
      else ParseChars(s, i + 6, acc + [code as char])
    else None
  }

  function ParseString(s: string, i: nat): (r: Option<(string, nat)>)
    requires i < |s| && s[i] == '"'
    ensures r.Some? ==> i + 1 < r.value.1 <= |s|
  {
    ParseChars(s, i + 1, [])
  }

  /** A number: `-? (0 | [1-9][0-9]*) (. [0-9]+)? ([eE] [+-]? [0-9]+)?`. */
  function ParseNumber(s: string, i: nat): (r: Option<(Decimal, nat)>)
    requires i < |s|
    ensures r.Some? ==> i < r.value.1 <= |s|
  {
    var negative := s[i] == '-';
    var a := if negative then i + 1 else i;
    if a == |s| || !IsDigit(s[a]) then None
    else
      var b := if s[a] == '0' then a + 1 else DigitsEnd(s, a);
      var hasFraction := b < |s| && s[b] == '.';
      var c := if hasFraction then DigitsEnd(s, b + 1) else b;
      if hasFraction && c == b + 1 then None
      else
        var fraction := if hasFraction then s[b + 1..c] else "";
        var hasExponent := c < |s| && (s[c] == 'e' || s[c] == 'E');
        var d := if hasExponent && c + 1 < |s| && (s[c + 1] == '+' || s[c + 1] == '-') then c + 2 else c + 1;
        var e := if hasExponent && d <= |s| then DigitsEnd(s, d) else c;
        if hasExponent && (d > |s| || e == d) then None
        else
          assert forall k :: 0 <= k < |s[a..b]| ==> IsDigit(s[a..b][k]);
          assert forall k :: 0 <= k < |fraction| ==> IsDigit(fraction[k]);
          DigitsJoin(s[a..b], fraction);
          var magnitude: int := DigitsValue(s[a..b] + fraction);
          var expDigits := if hasExponent then DigitsValue(s[d..e]) else 0;
          var exp := if hasExponent && s[c + 1] == '-' then -expDigits else expDigits;
          var end := if hasExponent then e else c;
          Some((Decimal(if negative then -magnitude else magnitude, exp - |fraction|), end))
  }

  function ParseLiteral(s: string, i: nat, word: string, v: Json): (r: Option<(Json, nat)>)
    requires i <= |s| && |word| > 0
    ensures r.Some? ==> i < r.value.1 <= |s|
  {
    if i + |word| <= |s| && s[i..i + |word|] == word then Some((v, i + |word|)) else None
  }

  /** A value starting exactly at `i`, with the position just after it. */
  function ParseValue(s: string, i: nat): (r: Option<(Json, nat)>)
    requires i <= |s|
    ensures r.Some? ==> i < r.value.1 <= |s|
    decreases |s| - i, 1
  {
    if i == |s| then None
    else if s[i] == 'n' then ParseLiteral(s, i, "null", JNull)
    else if s[i] == 't' then ParseLiteral(s, i, "true", JBool(true))
    else if s[i] == 'f' then ParseLiteral(s, i, "false", JBool(false))
    else if s[i] == '"' then
      match ParseString(s, i)
      case None => None
      case Some((str, j)) => Some((JString(str), j))
    else if s[i] == '[' then ParseArray(s, i)
    else if s[i] == '{' then ParseObject(s, i)
    else if s[i] == '-' || IsDigit(s[i]) then
      match ParseNumber(s, i)
      case None => None
      case Some((n, j)) => Some((JNumber(n), j))
    else None
  }

  function ParseArray(s: string, i: nat): (r: Option<(Json, nat)>)
    requires i < |s| && s[i] == '['
    ensures r.Some? ==> i < r.value.1 <= |s|
    decreases |s| - i, 0
  {
    var j := SkipSpace(s, i + 1);
    if j < |s| && s[j] == ']' then Some((JArray([]), j + 1))
    else ParseElements(s, j, [])
  }

  /** The elements of an array from `i`, one value then `,` or `]`. */
  function ParseElements(s: string, i: nat, acc: seq<Json>): (r: Option<(Json, nat)>)
    requires i <= |s|
    ensures r.Some? ==> i < r.value.1 <= |s|
    decreases |s| - i, 2
  {
    match ParseValue(s, i)
    case None => None
    case Some((v, j)) =>
      var k := SkipSpace(s, j);
      if k < |s| && s[k] == ',' then ParseElements(s, SkipSpace(s, k + 1), acc + [v])
      else if k < |s| && s[k] == ']' then Some((JArray(acc + [v]), k + 1))
      else None
  }

  function ParseObject(s: string, i: nat): (r: Option<(Json, nat)>)
    requires i < |s| && s[i] == '{'
    ensures r.Some? ==> i < r.value.1 <= |s|
    decreases |s| - i, 0
  {
    var j := SkipSpace(s, i + 1);
    if j < |s| && s[j] == '}' then Some((JObject([]), j + 1))
    else ParseMembers(s, j, [])
  }

  /** The members of an object from `i`: a key, `:`, a value, then `,` or `}`. */
  function ParseMembers(s: string, i: nat, acc: seq<(string, Json)>): (r: Option<(Json, nat)>)
    requires i <= |s|
    ensures r.Some? ==> i < r.value.1 <= |s|
    decreases |s| - i, 2
  {
    if i == |s| || s[i] != '"' then None
    else
      match ParseString(s, i)
      case None => None
      case Some((key, j)) =>
        var k := SkipSpace(s, j);
        if k == |s| || s[k] != ':' then None
        else
          match ParseValue(s, SkipSpace(s, k + 1))
          case None => None
          case Some((v, m)) =>
            var n := SkipSpace(s, m);
            if n < |s| && s[n] == ',' then ParseMembers(s, SkipSpace(s, n + 1), acc + [(key, v)])
            else if n < |s| && s[n] == '}' then Some((JObject(acc + [(key, v)]), n + 1))
            else None
  }

  /** `JSON.parse(s)`: one value, with only JSON white space around it. */
  function Parse(s: string): Option<Json> {
    match ParseValue(s, SkipSpace(s, 0))
    case None => None
    case Some((v, j)) => if SkipSpace(s, j) == |s| then Some(v) else None
  }
}
