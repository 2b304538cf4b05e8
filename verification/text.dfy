/** The Python `str` operations the bot's code relies on, over `seq<char>`:
    `lower()`, `strip()`/`lstrip()`/`rstrip()`, `split()`, `split(sep)`,
    `find`/`rfind`, `in`, `startswith`/`endswith`, `join`, `int(...)` and
    `str(int)`. */
module Text {
  import opened Wrappers

  /** Python's `str.isspace()` for one character. */
  predicate IsSpace(c: char) {
    c == ' ' || c == '\t' || c == '\n' || c == '\r' || c == '\U{000B}' || c == '\U{000C}'
    || ('\U{001C}' <= c <= '\U{001F}') || c == '\U{0085}' || c == '\U{00A0}'
    || c == '\U{1680}' || ('\U{2000}' <= c <= '\U{200A}') || c == '\U{2028}'
    || c == '\U{2029}' || c == '\U{202F}' || c == '\U{205F}' || c == '\U{3000}'
  }

  /** Capital letters the model folds: ASCII and Cyrillic (U+0400..U+042F). */
  predicate IsUpper(c: char) {
    ('A' <= c <= 'Z') || ('\U{0400}' <= c <= '\U{042F}')
  }

  /** Python's `lower()` on one ASCII or Cyrillic character. */
  function LowerChar(c: char): char {
    if 'A' <= c <= 'Z' then (c as int + 32) as char
    else if '\U{0410}' <= c <= '\U{042F}' then (c as int + 32) as char
    else if '\U{0400}' <= c <= '\U{040F}' then (c as int + 80) as char
    else c
  }

  /** Lower-casing changes exactly the capitals, leaves no capital behind
      and never turns whitespace into text or back. */
  lemma LowerCharFacts(c: char)
    ensures IsUpper(c) <==> LowerChar(c) != c
    ensures !IsUpper(LowerChar(c))
    ensures IsSpace(LowerChar(c)) <==> IsSpace(c)
  {
  }

  /** Python's `str.lower()`; it keeps the length. */
  function Lower(s: string): (r: string)
    ensures |r| == |s|
  {
    seq(|s|, i requires 0 <= i < |s| => LowerChar(s[i]))
  }

  /** `lower()` works character by character. */
  lemma LowerAt(s: string)
    ensures forall i :: 0 <= i < |s| ==> Lower(s)[i] == LowerChar(s[i])
  {
  }

  /** Python's `str.lstrip()`: drops the leading whitespace. */
  function LStrip(s: string): (r: string)
    ensures |r| <= |s|
    ensures r == [] || !IsSpace(r[0])
    ensures |s| > 0 && IsSpace(s[0]) ==> |r| < |s|
    ensures |s| > 0 && !IsSpace(s[0]) ==> r == s
    decreases |s|
  {
    if |s| > 0 && IsSpace(s[0]) then LStrip(s[1..]) else s
  }

  /** What `lstrip()` removes is a whitespace prefix and nothing else. */
  lemma {:induction false} LStripRemovesSpace(s: string)
    ensures LStrip(s) == s[|s| - |LStrip(s)|..]
    ensures forall i :: 0 <= i < |s| - |LStrip(s)| ==> IsSpace(s[i])
    decreases |s|
  {
    if |s| > 0 && IsSpace(s[0]) {
      LStripRemovesSpace(s[1..]);
    }
  }

  /** Python's `str.rstrip()`: drops the trailing whitespace. */
  function RStrip(s: string): (r: string)
    ensures |r| <= |s|
    ensures r == [] || !IsSpace(r[|r| - 1])
    ensures |s| > 0 && !IsSpace(s[|s| - 1]) ==> r == s
    decreases |s|
  {
    if |s| > 0 && IsSpace(s[|s| - 1]) then RStrip(s[..|s| - 1]) else s
  }

  /** What `rstrip()` removes is a whitespace suffix and nothing else. */
  lemma {:induction false} RStripRemovesSpace(s: string)
    ensures RStrip(s) == s[..|RStrip(s)|]
    ensures forall i :: |RStrip(s)| <= i < |s| ==> IsSpace(s[i])
    decreases |s|
  {
    if |s| > 0 && IsSpace(s[|s| - 1]) {
      var t := s[..|s| - 1];
      RStripRemovesSpace(t);
      assert forall i :: 0 <= i < |t| ==> t[i] == s[i];
    }
  }

  /** Python's `str.strip()`. */
  function Strip(s: string): (r: string)
    ensures |r| <= |s|
    ensures r == [] || (!IsSpace(r[0]) && !IsSpace(r[|r| - 1]))
  {
    var t := LStrip(s);
    var r := RStrip(t);
    assert r != [] ==> r[0] == t[0] by {
      if r != [] {
        RStripRemovesSpace(t);
      }
    }
    r
  }

  /** `strip()` keeps a contiguous stretch of the text and drops only
      whitespace around it. */
  lemma StripIsInfix(s: string) returns (start: nat)
    ensures start + |Strip(s)| <= |s|
    ensures Strip(s) == s[start..start + |Strip(s)|]
    ensures forall i :: 0 <= i < start ==> IsSpace(s[i])
    ensures forall i :: start + |Strip(s)| <= i < |s| ==> IsSpace(s[i])
  {
    var t := LStrip(s);
    LStripRemovesSpace(s);
    RStripRemovesSpace(t);
    start := |s| - |t|;
    forall i | start + |Strip(s)| <= i < |s|
      ensures IsSpace(s[i])
    {
      assert s[i] == t[i - start];
    }
  }

  /** Python's `str.strip(c)` for a single character `c`. */
  function StripChar(s: string, c: char): (r: string)
    ensures |r| <= |s|
    ensures r == [] || (r[0] != c && r[|r| - 1] != c)
    decreases |s|
  {
    if |s| > 0 && s[0] == c then StripChar(s[1..], c)
    else if |s| > 0 && s[|s| - 1] == c then StripChar(s[..|s| - 1], c)
    else s
  }

  /** The leading run of non-whitespace characters. */
  function TakeWord(s: string): (r: string)
    ensures |r| <= |s|
    ensures |s| > 0 && !IsSpace(s[0]) ==> |r| >= 1
    decreases |s|
  {
    if |s| > 0 && !IsSpace(s[0]) then [s[0]] + TakeWord(s[1..]) else []
  }

  /** Python's `str.split()` with no separator: the maximal runs of
      non-whitespace characters, in order. */
  function Words(s: string): (r: seq<string>)
    decreases |s|
  {
    var t := LStrip(s);
    if t == [] then []
    else
      var w := TakeWord(t);
      [w] + Words(t[|w|..])
  }

  /** A non-empty run of non-whitespace characters. */
  predicate IsWord(w: string) {
    w != [] && forall i :: 0 <= i < |w| ==> !IsSpace(w[i])
  }

  lemma {:induction false} TakeWordNoSpace(s: string)
    ensures forall i :: 0 <= i < |TakeWord(s)| ==> !IsSpace(TakeWord(s)[i])
    decreases |s|
  {
    if |s| > 0 && !IsSpace(s[0]) {
      TakeWordNoSpace(s[1..]);
    }
  }

  /** `split()` yields words only: none is empty, none holds whitespace. */
  lemma {:induction false} WordsAreWords(s: string)
    ensures forall i :: 0 <= i < |Words(s)| ==> IsWord(Words(s)[i])
    decreases |s|
  {
    var t := LStrip(s);
    if t != [] {
      TakeWordNoSpace(t);
      WordsAreWords(t[|TakeWord(t)|..]);
    }
  }

  /** `sub` occurs in `s` starting at index `i`. */
  predicate OccursAt(s: string, sub: string, i: int) {
    0 <= i && i + |sub| <= |s| && s[i..i + |sub|] == sub
  }

  /** Python's `s.find(sub, start)`: the first index at or after `start`
      where `sub` occurs, or -1. */
  function FindFrom(s: string, sub: string, start: nat): (r: int)
    ensures r == -1 || (start <= r && OccursAt(s, sub, r))
    decreases |s| - start
  {
    if start + |sub| > |s| then -1
    else if s[start..start + |sub|] == sub then start
    else FindFrom(s, sub, start + 1)
  }

  /** `find` reports the first occurrence: none lies between `start` and
      its answer, and -1 means there is none at all. */
  lemma {:induction false} FindFromFirst(s: string, sub: string, start: nat, j: int)
    requires start <= j && OccursAt(s, sub, j)
    ensures start <= FindFrom(s, sub, start) <= j
    decreases |s| - start
  {
    if start + |sub| <= |s| && s[start..start + |sub|] != sub {
      FindFromFirst(s, sub, start + 1, j);
    }
  }

  /** Positions whose character cannot start `sub` are skipped by `find`. */
  lemma {:induction false} FindFromSkips(s: string, sub: string, start: nat, j: nat)
    requires sub != [] && start <= j
    requires forall k :: start <= k < j && k < |s| ==> s[k] != sub[0]
    ensures FindFrom(s, sub, start) == FindFrom(s, sub, j)
    decreases j - start
  {
    if start < j && start + |sub| <= |s| {
      assert s[start..start + |sub|][0] == s[start];
      FindFromSkips(s, sub, start + 1, j);
    }
  }

  /** Without the first character of `sub` after `start`, `find` gives -1. */
  lemma FindFromAbsent(s: string, sub: string, start: nat)
    requires sub != []
    requires forall k :: start <= k < |s| ==> s[k] != sub[0]
    ensures FindFrom(s, sub, start) == -1
  {
    var j := if start <= |s| then |s| else start;
    FindFromSkips(s, sub, start, j);
  }

  /** Python's `s.find(sub)`. */
  function Find(s: string, sub: string): int {
    FindFrom(s, sub, 0)
  }

  /** Python's `sub in s`. */
  predicate Contains(s: string, sub: string) {
    Find(s, sub) >= 0
  }

  /** An occurrence at a known index is enough to conclude `sub in s`. */
  lemma ContainsAt(s: string, sub: string, i: int)
    requires OccursAt(s, sub, i)
    ensures Contains(s, sub)
  {
    FindFromFirst(s, sub, 0, i);
  }

  /** Python's `s.rfind(c)` for one character: its last index, or -1. */
  function RFind(s: string, c: char): (r: int)
    ensures -1 <= r < |s|
    ensures r >= 0 ==> s[r] == c
    decreases |s|
  {
    if |s| == 0 then -1
    else if s[|s| - 1] == c then |s| - 1
    else RFind(s[..|s| - 1], c)
  }

  /** `rfind` reports the last occurrence, and -1 only when there is none. */
  lemma {:induction false} RFindLast(s: string, c: char)
    ensures forall j :: RFind(s, c) < j < |s| ==> s[j] != c
    decreases |s|
  {
    if |s| > 0 && s[|s| - 1] != c {
      RFindLast(s[..|s| - 1], c);
    }
  }

  /** Python's `s.startswith(prefix)`. */
  predicate StartsWith(s: string, prefix: string) {
    |prefix| <= |s| && s[..|prefix|] == prefix
  }

  /** Python's `s.endswith(suffix)`. */
  predicate EndsWith(s: string, suffix: string) {
    |suffix| <= |s| && s[|s| - |suffix|..] == suffix
  }

  /** Python's `sep.join(parts)`. */
  function Join(parts: seq<string>, sep: string): string
    decreases |parts|
  {
    if |parts| == 0 then []
    else if |parts| == 1 then parts[0]
    else parts[0] + sep + Join(parts[1..], sep)
  }

  /** Python's `s.split(sep)` for a non-empty separator; joining the pieces
      back with `sep` gives `s` again. */
  function SplitAll(s: string, sep: string): (r: seq<string>)
    requires sep != []
    ensures |r| >= 1
    ensures Join(r, sep) == s
    decreases |s|
  {
    var k := Find(s, sep);
    if k < 0 then [s]
    else
      assert s == s[..k] + sep + s[k + |sep|..];
      [s[..k]] + SplitAll(s[k + |sep|..], sep)
  }

  /** Python's `s.split(sep, 1)`: one piece when `sep` is absent, otherwise
      the text before and after its first occurrence. */
  function SplitOnce(s: string, sep: string): (r: seq<string>)
    requires sep != []
    ensures 1 <= |r| <= 2
    ensures |r| == 1 <==> !Contains(s, sep)
    ensures |r| == 1 ==> r[0] == s
    ensures |r| == 2 ==> s == r[0] + sep + r[1]
  {
    var k := Find(s, sep);
    if k < 0 then [s]
    else
      assert s == s[..k] + sep + s[k + |sep|..];
      [s[..k], s[k + |sep|..]]
  }

  /** `split(sep, 1)` of a tag that cannot start `sep`, then `sep`, then
      the rest gives the tag and the rest. */
  lemma SplitOnceAfterTag(tag: string, sep: string, rest: string)
    requires sep != []
    requires forall k :: 0 <= k < |tag| ==> tag[k] != sep[0]
    ensures SplitOnce(tag + sep + rest, sep) == [tag, rest]
  {
    var s := tag + sep + rest;
    FindFromSkips(s, sep, 0, |tag|);
    assert s[|tag|..|tag| + |sep|] == sep;
    assert s[..|tag|] == tag;
    assert s[|tag| + |sep|..] == rest;
  }

  /** `split(sep)` of text that cannot start `sep` is the text alone. */
  lemma SplitAllAbsent(s: string, sep: string)
    requires sep != []
    requires forall k :: 0 <= k < |s| ==> s[k] != sep[0]
    ensures SplitAll(s, sep) == [s]
  {
    FindFromAbsent(s, sep, 0);
  }

  /** `lower()` leaves text without capitals alone. */
  lemma LowerUnchanged(s: string)
    requires forall k :: 0 <= k < |s| ==> !IsUpper(s[k])
    ensures Lower(s) == s
  {
    forall k | 0 <= k < |s|
      ensures Lower(s)[k] == s[k]
    {
      LowerCharFacts(s[k]);
    }
  }

  predicate IsDigit(c: char) {
    '0' <= c <= '9'
  }

  predicate AllDigits(s: string) {
    forall i :: 0 <= i < |s| ==> IsDigit(s[i])
  }

  /** The value of a string of decimal digits. */
  function DigitsValue(s: string): nat
    requires AllDigits(s)
    decreases |s|
  {
    if s == [] then 0
    else 10 * DigitsValue(s[..|s| - 1]) + (s[|s| - 1] as int - '0' as int)
  }

  /** Python's `str(n)` for a natural number. */
  function NatToDigits(n: nat): (r: string)
    decreases n
  {
    if n < 10 then [('0' as int + n) as char]
    else NatToDigits(n / 10) + [('0' as int + n % 10) as char]
  }

  /** Python's `str(n)`. */
  function IntToString(n: int): string {
    if n < 0 then "-" + NatToDigits(-n) else NatToDigits(n)
  }

  /** Python's `int(s)` for base-10 text: surrounding whitespace, an
      optional sign and at least one ASCII digit; anything else is the
      `ValueError` case, here `None`. */
  function ParseInt(s: string): Option<int> {
    var t := Strip(s);
    if |t| > 1 && (t[0] == '-' || t[0] == '+') && AllDigits(t[1..]) then
      var v: int := DigitsValue(t[1..]);
      Some(if t[0] == '-' then -v else v)
    else if |t| > 0 && AllDigits(t) then Some(DigitsValue(t))
    else None
  }

  /** Digits written by `NatToDigits` read back as the same number. */
  lemma {:induction false} DigitsRoundTrip(n: nat)
    ensures NatToDigits(n) != []
    ensures AllDigits(NatToDigits(n))
    ensures DigitsValue(NatToDigits(n)) == n
    decreases n
  {
    if n >= 10 {
      DigitsRoundTrip(n / 10);
      var d := NatToDigits(n);
      assert d[..|d| - 1] == NatToDigits(n / 10);
    }
  }

  /** A string without leading or trailing whitespace is its own `strip()`. */
  lemma StripUnchanged(s: string)
    requires s == [] || (!IsSpace(s[0]) && !IsSpace(s[|s| - 1]))
    ensures Strip(s) == s
  {
  }

  /** `int(str(n)) == n` for every integer. */
  lemma ParseIntRoundTrip(n: int)
    ensures ParseInt(IntToString(n)) == Some(n)
  {
    var m: nat := if n < 0 then -n else n;
    DigitsRoundTrip(m);
    var s := IntToString(n);
    var d := NatToDigits(m);
    assert !IsSpace(s[0]) && !IsSpace(s[|s| - 1]);
    StripUnchanged(s);
    if n < 0 {
      assert s[1..] == d;
    }
  }
}
