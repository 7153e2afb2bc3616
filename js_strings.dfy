/** The JavaScript string operations the services rely on: `trim`, `split`,
    `indexOf`/`includes`, `startsWith`/`endsWith`, the `\s` and `\w` classes of
    regular expressions, and number-to-string conversion. Strings are sequences
    of characters. */
module JsStrings {
  import opened Wrappers

  /** The characters `String.prototype.trim` removes and the regular
      expression class `\s` matches: WhiteSpace and LineTerminator. */
  predicate IsSpace(c: char) {
    || c == '\t' || c == '\n' || c == '\U{000B}' || c == '\U{000C}' || c == '\r'
    || c == ' ' || c == '\U{00A0}' || c == '\U{1680}'
    || ('\U{2000}' <= c <= '\U{200A}')
    || c == '\U{2028}' || c == '\U{2029}' || c == '\U{202F}' || c == '\U{205F}'
    || c == '\U{3000}' || c == '\U{FEFF}'
  }

  /** The regular expression class `\w`: `[A-Za-z0-9_]`. */
  predicate IsWordChar(c: char) {
    ('a' <= c <= 'z') || ('A' <= c <= 'Z') || ('0' <= c <= '9') || c == '_'
  }

  predicate AllSpace(s: string) {
    forall i :: 0 <= i < |s| ==> IsSpace(s[i])
  }

  predicate StartsWith(s: string, prefix: string) {
    |prefix| <= |s| && s[..|prefix|] == prefix
  }

  predicate EndsWith(s: string, suffix: string) {
    |suffix| <= |s| && s[|s| - |suffix|..] == suffix
  }

  /** Number of leading characters of `s` that `trim` removes. */
  function LeadingSpaces(s: string): (n: nat)
    ensures n <= |s|
    ensures AllSpace(s[..n])
    ensures n == |s| || !IsSpace(s[n])
  {
    if |s| == 0 || !IsSpace(s[0]) then 0
    else
      var n := 1 + LeadingSpaces(s[1..]);
      assert s[..n] == [s[0]] + s[1..][..n - 1];
      n
  }

  /** Number of trailing characters of `s` that `trim` removes. */
  function TrailingSpaces(s: string): (n: nat)
    ensures n <= |s|
    ensures AllSpace(s[|s| - n..])
    ensures n == |s| || !IsSpace(s[|s| - 1 - n])
  {
    if |s| == 0 || !IsSpace(s[|s| - 1]) then 0
    else
      var init := s[..|s| - 1];
      var n := 1 + TrailingSpaces(init);
      assert s[|s| - n..] == init[|init| - (n - 1)..] + [s[|s| - 1]];
      n
  }

  /** `String.prototype.trim`: spaces removed from both ends. */
  function Trim(s: string): (r: string)
    ensures |r| <= |s|
    ensures r == [] || (!IsSpace(r[0]) && !IsSpace(r[|r| - 1]))
    decreases |s|
  {
    if |s| > 0 && IsSpace(s[0]) then Trim(s[1..])
    else if |s| > 0 && IsSpace(s[|s| - 1]) then Trim(s[..|s| - 1])
    else s
  }

  /** `s` is its leading spaces, then `Trim(s)`, then only spaces. */
  lemma {:induction false} TrimShape(s: string)
    ensures LeadingSpaces(s) + |Trim(s)| <= |s|
    ensures s[LeadingSpaces(s)..LeadingSpaces(s) + |Trim(s)|] == Trim(s)
    ensures AllSpace(s[LeadingSpaces(s) + |Trim(s)|..])
    decreases |s|
  {
    if |s| > 0 && IsSpace(s[0]) {
      TrimShape(s[1..]);
      assert s[1..][LeadingSpaces(s[1..])..] == s[LeadingSpaces(s)..];
    } else if |s| > 0 && IsSpace(s[|s| - 1]) {
      var init := s[..|s| - 1];
      TrimShape(init);
      assert LeadingSpaces(s) == 0 == LeadingSpaces(init);
      var e := |Trim(s)|;
      assert s[e..] == init[e..] + [s[|s| - 1]];
    }
  }

  /** `sub` occurs in `s` at index `k`. */
  predicate OccursAt(s: string, sub: string, k: int) {
    0 <= k && k + |sub| <= |s| && s[k..k + |sub|] == sub
  }

  /** A joined string starts with its first part and ends with its second. */
  lemma JoinedEnds(a: string, b: string)
    ensures StartsWith(a + b, a) && EndsWith(a + b, b)
  {
    assert (a + b)[..|a|] == a;
    assert (a + b)[|a + b| - |b|..] == b;
  }

  /** A suffix of the second part is a suffix of the whole. */
  lemma EndsWithJoined(a: string, b: string, suffix: string)
    requires EndsWith(b, suffix)
    ensures EndsWith(a + b, suffix)
  {
    assert (a + b)[|a + b| - |suffix|..] == b[|b| - |suffix|..];
  }

  /** `s.indexOf(sub, from)`: the first occurrence of `sub` at or after `from`. */
  function IndexOf(s: string, sub: string, from: nat): (r: Option<nat>)
    requires from <= |s|
    ensures r.Some? ==> from <= r.value && OccursAt(s, sub, r.value)
    ensures r.Some? ==> forall k :: from <= k < r.value ==> !OccursAt(s, sub, k)
    ensures r.None? ==> forall k :: from <= k ==> !OccursAt(s, sub, k)
    decreases |s| - from
  {
    if OccursAt(s, sub, from) then Some(from)
    else if from == |s| then None
    else IndexOf(s, sub, from + 1)
  }

  /** `s.includes(sub)`. */
  predicate Contains(s: string, sub: string) {
    IndexOf(s, sub, 0).Some?
  }

  /** A string includes every piece it is built from. */
  lemma ContainsPiece(a: string, sub: string, b: string)
    ensures Contains(a + sub + b, sub)
  {
    var s := a + sub + b;
    assert s[|a|..|a| + |sub|] == sub;
    assert OccursAt(s, sub, |a|);
  }

  /** A string includes the piece its second part starts with. */
  lemma ContainsLead(a: string, b: string, sub: string, rest: string)
    requires b == sub + rest
    ensures Contains(a + b, sub)
  {
    ContainsPiece(a, sub, rest);
    assert a + b == a + sub + rest;
  }

  /** `Contains` looks at every position: an occurrence anywhere is found. */
  lemma ContainsIff(s: string, sub: string)
    ensures Contains(s, sub) <==> exists k :: OccursAt(s, sub, k)
  {
  }

  /** A string that includes `sub` still does with text appended or prepended. */
  lemma ContainsExtend(a: string, s: string, b: string, sub: string)
    requires Contains(s, sub)
    ensures Contains(a + s + b, sub)
  {
    var k := IndexOf(s, sub, 0).value;
    var t := a + s + b;
    assert t[|a| + k..|a| + k + |sub|] == s[k..k + |sub|];
    assert OccursAt(t, sub, |a| + k);
  }

  /** `parts.join('')`: the parts joined in order, with nothing between. */
  function Concat(parts: seq<string>): string {
    if |parts| == 0 then "" else Concat(parts[..|parts| - 1]) + parts[|parts| - 1]
  }

  /** Joining two lists of parts joins each and appends the results. */
  lemma {:induction false} ConcatAppend(a: seq<string>, b: seq<string>)
    ensures Concat(a + b) == Concat(a) + Concat(b)
    decreases |b|
  {
    if |b| == 0 {
      assert a + b == a;
    } else {
      assert (a + b)[..|a + b| - 1] == a + b[..|b| - 1];
      ConcatAppend(a, b[..|b| - 1]);
    }
  }

  function Join(parts: seq<string>, sep: char): string
    requires |parts| >= 1
  {
    if |parts| == 1 then parts[0] else parts[0] + [sep] + Join(parts[1..], sep)
  }

  /** `s.split(sep)` for a one-character separator: the pieces contain no
      separator and joining them with it gives `s` back. */
  function Split(s: string, sep: char): (parts: seq<string>)
    ensures |parts| >= 1
    ensures forall k :: 0 <= k < |parts| ==> sep !in parts[k]
    ensures Join(parts, sep) == s
    decreases |s|
  {
    var i := IndexOf(s, [sep], 0);
    if i.None? then
      assert forall k :: 0 <= k < |s| ==> s[k] != sep by {
        forall k | 0 <= k < |s| ensures s[k] != sep {
          assert !OccursAt(s, [sep], k) && s[k..k + 1] == [s[k]];
        }
      }
      [s]
    else
      var head := s[..i.value];
      assert sep !in head by {
        forall k | 0 <= k < |head| ensures head[k] != sep {
          assert !OccursAt(s, [sep], k) && s[k..k + 1] == [head[k]];
        }
      }
      var rest := Split(s[i.value + 1..], sep);
      assert s == head + [sep] + s[i.value + 1..];
      [head] + rest
  }

  /** A string without the separator splits into itself alone. */
  lemma SplitNoSep(s: string, sep: char)
    requires sep !in s
    ensures Split(s, sep) == [s]
  {
    forall k | 0 <= k < |s| ensures !OccursAt(s, [sep], k) {
      assert s[k..k + 1][0] == s[k];
    }
  }

  /** Splitting at the first separator: the text before it is the first piece,
      and the rest splits on its own. */
  lemma SplitCons(a: string, sep: char, r: string)
    requires sep !in a
    ensures Split(a + [sep] + r, sep) == [a] + Split(r, sep)
  {
    var s := a + [sep] + r;
    assert s[|a|..|a| + 1] == [sep];
    assert OccursAt(s, [sep], |a|);
    forall k | 0 <= k < |a| ensures !OccursAt(s, [sep], k) {
      assert s[k..k + 1][0] == a[k];
    }
    assert IndexOf(s, [sep], 0) == Some(|a|);
    assert s[..|a|] == a && s[|a| + 1..] == r;
  }

  /** `s.includes(c)` for one character is membership. */
  lemma ContainsChar(s: string, c: char)
    ensures Contains(s, [c]) <==> c in s
  {
    if c in s {
      var k :| 0 <= k < |s| && s[k] == c;
      assert s[k..k + 1] == [c];
      assert OccursAt(s, [c], k);
    }
    if Contains(s, [c]) {
      var k := IndexOf(s, [c], 0).value;
      assert s[k..k + 1] == [c];
      assert s[k] == c;
    }
  }

  /** A string holding the separator splits into at least two pieces. */
  lemma SplitAtLeastTwo(s: string, sep: char)
    requires sep in s
    ensures |Split(s, sep)| >= 2
  {
  }

  function DigitString(n: nat): (r: string)
    ensures |r| >= 1
    ensures forall k :: 0 <= k < |r| ==> '0' <= r[k] <= '9'
  {
    var d := [(('0' as int) + n % 10) as char];
    if n < 10 then d else DigitString(n / 10) + d
  }

  /** `String(n)` for an integer `n`. */
  function IntToString(n: int): string {
    if n < 0 then "-" + DigitString(-n) else DigitString(n)
  }
}
