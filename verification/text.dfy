/** String helpers with the behaviour of the Python built-ins the source uses:
    `str(int)`, `in` on strings, `lower()`, `strip()`, `split(sep)`, `int(str)`.
    Only ASCII letters and digits, and the whitespace of `str.isspace()`, are given special meaning. */
module Text {
  import opened Wrappers

  /** `p in s` for two Python strings. */
  predicate IsSubstring(p: string, s: string) {
    exists i | 0 <= i <= |s| - |p| :: OccursAt(p, s, i)
  }

  predicate OccursAt(p: string, s: string, i: int) {
    0 <= i <= |s| - |p| && s[i..i + |p|] == p
  }

  /** A substring stays one when text is added on either side. */
  lemma SubstringInContext(p: string, a: string, s: string, b: string)
    requires IsSubstring(p, s)
    ensures IsSubstring(p, a + s + b)
  {
    var i :| 0 <= i <= |s| - |p| && OccursAt(p, s, i);
    assert (a + s + b)[|a| + i..|a| + i + |p|] == s[i..i + |p|];
    assert OccursAt(p, a + s + b, |a| + i);
  }

  function DigitChar(d: nat): char
    requires d < 10
  {
    ['0', '1', '2', '3', '4', '5', '6', '7', '8', '9'][d]
  }

  function NatToString(n: nat): (s: string)
    ensures |s| >= 1
    decreases n
  {
    if n < 10 then [DigitChar(n)] else NatToString(n / 10) + [DigitChar(n % 10)]
  }

  /** `str(n)` for a Python int. */
  function IntToString(n: int): string {
    if n < 0 then "-" + NatToString(-n) else NatToString(n)
  }

  function LowerChar(c: char): char {
    if 'A' <= c <= 'Z' then (c as int + 32) as char else c
  }

  /** `s.lower()` restricted to ASCII letters. */
  function Lower(s: string): (r: string)
    ensures |r| == |s|
    ensures forall i :: 0 <= i < |s| ==> r[i] == LowerChar(s[i])
  {
    seq(|s|, i requires 0 <= i < |s| => LowerChar(s[i]))
  }

  /** The characters of Python's `str.isspace()`, which `str.strip()` and
      `int()` drop from both ends. */
  predicate IsSpace(c: char) {
    || c == ' ' || c == '\t' || c == '\n' || c == '\r' || c == '\U{B}' || c == '\U{C}'
    || '\U{1C}' <= c <= '\U{1F}' || c == '\U{85}' || c == '\U{A0}' || c == '\U{1680}'
    || '\U{2000}' <= c <= '\U{200A}' || c == '\U{2028}' || c == '\U{2029}' || c == '\U{202F}'
    || c == '\U{205F}' || c == '\U{3000}'
  }

  function TrimLeft(s: string): (r: string)
    ensures |r| <= |s|
    ensures r == s[|s| - |r|..]
    ensures |r| > 0 ==> !IsSpace(r[0])
    ensures forall i :: 0 <= i < |s| - |r| ==> IsSpace(s[i])
  {
    if |s| > 0 && IsSpace(s[0]) then TrimLeft(s[1..]) else s
  }

  function TrimRight(s: string): (r: string)
    ensures |r| <= |s|
    ensures r == s[..|r|]
    ensures |r| > 0 ==> !IsSpace(r[|r| - 1])
    ensures forall i :: |r| <= i < |s| ==> IsSpace(s[i])
  {
    if |s| > 0 && IsSpace(s[|s| - 1]) then TrimRight(s[..|s| - 1]) else s
  }

  /** `s.strip()`: no leading or trailing whitespace remains. */
  function Strip(s: string): (r: string)
    ensures |r| <= |s|
    ensures |r| > 0 ==> !IsSpace(r[0]) && !IsSpace(r[|r| - 1])
    ensures forall c :: c in r ==> c in s
  {
    var left := TrimLeft(s);
    var r := TrimRight(left);
    assert forall c :: c in r ==> c in left;
    r
  }

  /** A stripped string is its own strip. */
  lemma StripIdempotent(s: string)
    ensures Strip(Strip(s)) == Strip(s)
  {
    var r := Strip(s);
    if |r| > 0 {
      assert TrimLeft(r) == r;
      assert TrimRight(r) == r;
    }
  }

  /** Index of the first occurrence of `c`, if any. */
  function IndexOf(s: string, c: char): (r: Option<nat>)
    ensures r.None? <==> c !in s
    ensures r.Some? ==> r.value < |s| && s[r.value] == c && c !in s[..r.value]
  {
    if |s| == 0 then None
    else if s[0] == c then Some(0)
    else match IndexOf(s[1..], c)
      case None => None
      case Some(k) => assert s[..k + 1] == [s[0]] + s[1..][..k]; Some(k + 1)
  }

  /** `s.split(sep)` for a one-character separator: always at least one piece,
      and no piece contains the separator. */
  function Split(s: string, sep: char): (r: seq<string>)
    ensures |r| >= 1
    ensures forall i :: 0 <= i < |r| ==> sep !in r[i]
    decreases |s|
  {
    match IndexOf(s, sep)
    case None => [s]
    case Some(k) => [s[..k]] + Split(s[k + 1..], sep)
  }

  /** Joins pieces with a separator, the inverse of `Split`. */
  function Join(parts: seq<string>, sep: string): string {
    if |parts| == 0 then ""
    else if |parts| == 1 then parts[0]
    else parts[0] + sep + Join(parts[1..], sep)
  }

  lemma {:induction false} SplitJoin(s: string, sep: char)
    ensures Join(Split(s, sep), [sep]) == s
    decreases |s|
  {
    match IndexOf(s, sep)
    case None =>
    case Some(k) =>
      var rest := Split(s[k + 1..], sep);
      SplitJoin(s[k + 1..], sep);
      assert Split(s, sep) == [s[..k]] + rest;
      assert s == s[..k] + [sep] + s[k + 1..];
  }

  /** Splitting joined pieces gives them back, when no piece holds the
      separator. */
  lemma {:induction false} JoinSplit(parts: seq<string>, sep: char)
    requires |parts| >= 1
    requires forall i :: 0 <= i < |parts| ==> sep !in parts[i]
    ensures Split(Join(parts, [sep]), sep) == parts
    decreases |parts|
  {
    if |parts| > 1 {
      var head := parts[0];
      var rest := Join(parts[1..], [sep]);
      assert Join(parts, [sep]) == head + [sep] + rest;
      SplitFirst(head, rest, sep);
      JoinSplit(parts[1..], sep);
      assert parts == [head] + parts[1..];
    }
  }

  /** Splitting at the first separator peels off the piece before it. */
  lemma SplitFirst(head: string, rest: string, sep: char)
    requires sep !in head
    ensures Split(head + [sep] + rest, sep) == [head] + Split(rest, sep)
  {
    var s := head + [sep] + rest;
    assert s[|head|] == sep;
    assert s[..|head|] == head;
    var k := IndexOf(s, sep).value;
    assert k == |head|;
    assert s[k + 1..] == rest;
  }

  predicate IsDigit(c: char) {
    '0' <= c <= '9'
  }

  /** The value of a non-empty run of decimal digits and underscores, ignoring
      the underscores. */
  function DigitsValue(s: string): nat
    requires forall i :: 0 <= i < |s| ==> IsDigit(s[i]) || s[i] == '_'
  {
    if |s| == 0 then 0
    else if s[|s| - 1] == '_' then DigitsValue(s[..|s| - 1])
    else
      assert IsDigit(s[|s| - 1]);
      DigitsValue(s[..|s| - 1]) * 10 + (s[|s| - 1] as int - '0' as int)
  }

  /** Digits with single underscores between them, as Python's `int()` allows. */
  predicate IsDigitGroup(s: string) {
    && |s| > 0
    && IsDigit(s[0]) && IsDigit(s[|s| - 1])
    && (forall i :: 0 <= i < |s| ==> IsDigit(s[i]) || s[i] == '_')
    && (forall i :: 0 <= i < |s| - 1 ==> s[i] == '_' ==> s[i + 1] != '_')
  }

  /** Python's `int(text)` on a string: surrounding whitespace, an optional
      sign, and digits separated by single underscores. `None` stands for the
      ValueError `int()` raises. */
  function ParseInt(text: string): (r: Option<int>)
  {
    var t := Strip(text);
    if |t| == 0 then None
    else
      var negative := t[0] == '-';
      var body := if t[0] == '-' || t[0] == '+' then t[1..] else t;
      if IsDigitGroup(body) then
        Some(if negative then -(DigitsValue(body) as int) else DigitsValue(body) as int)
      else None
  }

  /** The delay-seconds form of section 10.2.3 of RFC 9110: one or more digits. */
  predicate IsDelaySeconds(s: string) {
    |s| > 0 && forall i :: 0 <= i < |s| ==> IsDigit(s[i])
  }

  /** Every delay-seconds value is read by `ParseInt` as its decimal value, a
      non-negative number. */
  lemma DelaySecondsParse(s: string)
    requires IsDelaySeconds(s)
    ensures ParseInt(s) == Some(DigitsValue(s) as int)
    ensures ParseInt(s).value >= 0
  {
    assert Strip(s) == s by {
      assert !IsSpace(s[0]) && !IsSpace(s[|s| - 1]);
      assert TrimLeft(s) == s;
      assert TrimRight(s) == s;
    }
  }

  /** Every character of `s` that is not whitespace survives the strip. */
  lemma StripKeeps(s: string)
    ensures forall i :: 0 <= i < |s| && !IsSpace(s[i]) ==> s[i] in Strip(s)
  {
    var left := TrimLeft(s);
    var r := TrimRight(left);
    forall i | 0 <= i < |s| && !IsSpace(s[i])
      ensures s[i] in Strip(s)
    {
      var j := i - (|s| - |left|);
      assert 0 <= j < |left| && left[j] == s[i];
      assert j < |r| && r[j] == s[i];
    }
  }

  /** A character other than a digit, whitespace, a sign or '_' anywhere in
      the text makes `int()` fail. */
  lemma ForeignCharNotInt(s: string, i: nat)
    requires i < |s| && !IsDigit(s[i]) && !IsSpace(s[i]) && s[i] != '+' && s[i] != '-' && s[i] != '_'
    ensures ParseInt(s).None?
  {
    StripKeeps(s);
    var t := Strip(s);
    assert s[i] in t;
    var body := if t[0] == '-' || t[0] == '+' then t[1..] else t;
    var k :| 0 <= k < |t| && t[k] == s[i];
    assert k > 0 || body == t;
    var j := if body == t then k else k - 1;
    assert body[j] == s[i];
    assert !IsDigitGroup(body);
  }

  /** An HTTP-date (the other form of the header) never parses as an int:
      every form of it in section 5.6.7 of RFC 9110 has a ':' in its time
      of day. */
  lemma HttpDateIsNotInt(s: string)
    requires ':' in s
    ensures ParseInt(s).None?
  {
    var i :| 0 <= i < |s| && s[i] == ':';
    ForeignCharNotInt(s, i);
  }
}
