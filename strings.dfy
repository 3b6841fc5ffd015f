/**
 * The JavaScript string operations the ingestion code relies on, on strings
 * as sequences of characters: `trim`, `startsWith`, `endsWith`, `indexOf`,
 * `includes`, `split` on one character, `join`, `parseInt(s, 10)` and the
 * value of a run of hexadecimal digits.
 *
 * The functions carry only the facts their callers need to be well defined;
 * what they mean is stated by the lemmas beside them, so that proofs about
 * the parser do not pay for these facts at every line.
 */
module Strings {
  import opened Wrappers

  /** ECMAScript WhiteSpace and LineTerminator: what `trim` removes and `\s` matches. */
  predicate IsSpace(c: char) {
    || c == '\t' || c == '\n' || c == '\U{000B}' || c == '\U{000C}' || c == '\r' || c == ' '
    || c == '\U{00A0}' || c == '\U{1680}' || ('\U{2000}' <= c <= '\U{200A}')
    || c == '\U{2028}' || c == '\U{2029}' || c == '\U{202F}' || c == '\U{205F}'
    || c == '\U{3000}' || c == '\U{FEFF}'
  }

  predicate IsDigit(c: char) { '0' <= c <= '9' }

  predicate IsHexDigit(c: char) { IsDigit(c) || 'a' <= c <= 'f' }

  predicate AllSpace(s: string) {
    forall i | 0 <= i < |s| :: IsSpace(s[i])
  }

  predicate AllDigits(s: string) {
    forall i | 0 <= i < |s| :: IsDigit(s[i])
  }

  /** The number of whitespace characters `s` starts with. */
  function LeadingSpaces(s: string): (n: nat)
    ensures n <= |s|
  {
    if s != [] && IsSpace(s[0]) then 1 + LeadingSpaces(s[1..]) else 0
  }

  lemma {:induction false} LeadingSpacesSpec(s: string)
    ensures AllSpace(s[..LeadingSpaces(s)])
    ensures LeadingSpaces(s) < |s| ==> !IsSpace(s[LeadingSpaces(s)])
  {
    if s != [] && IsSpace(s[0]) {
      LeadingSpacesSpec(s[1..]);
    }
  }

  /** The number of whitespace characters `s` ends with. */
  function TrailingSpaces(s: string): (n: nat)
    ensures n <= |s|
  {
    if s != [] && IsSpace(s[|s| - 1]) then 1 + TrailingSpaces(s[..|s| - 1]) else 0
  }

  lemma {:induction false} TrailingSpacesSpec(s: string)
    ensures AllSpace(s[|s| - TrailingSpaces(s)..])
    ensures TrailingSpaces(s) < |s| ==> !IsSpace(s[|s| - 1 - TrailingSpaces(s)])
  {
    if s != [] && IsSpace(s[|s| - 1]) {
      var t := s[..|s| - 1];
      TrailingSpacesSpec(t);
      assert s[|s| - TrailingSpaces(s)..] == t[|t| - TrailingSpaces(t)..] + [s[|s| - 1]];
    }
  }

  /** `s.trimStart()`, also the whitespace `parseInt` skips. */
  function TrimStart(s: string): string {
    s[LeadingSpaces(s)..]
  }

  /** `s.trim()`. */
  function Trim(s: string): string {
    var t := TrimStart(s);
    t[..|t| - TrailingSpaces(t)]
  }

  /**
   * `trim` removes whitespace at the two ends and nothing else: the result is
   * a slice of the input, what was cut off is whitespace, and the result
   * neither starts nor ends with whitespace.
   */
  lemma TrimSpec(s: string)
    ensures Trim(s) == [] || (!IsSpace(Trim(s)[0]) && !IsSpace(Trim(s)[|Trim(s)| - 1]))
    ensures exists i, j | 0 <= i <= j <= |s| :: Trim(s) == s[i..j] && AllSpace(s[..i]) && AllSpace(s[j..])
  {
    var n := LeadingSpaces(s);
    var t := s[n..];
    var m := TrailingSpaces(t);
    LeadingSpacesSpec(s);
    TrailingSpacesSpec(t);
    var j := n + |t| - m;
    var r := Trim(s);
    assert r == t[..|t| - m];
    assert r == s[n..j];
    assert s[j..] == t[|t| - m..];
    if r != [] {
      assert r[0] == s[n];
      assert r[|r| - 1] == t[|t| - 1 - m];
    }
    assert 0 <= n <= j <= |s| && r == s[n..j] && AllSpace(s[..n]) && AllSpace(s[j..]);
  }

  /** Trimming twice is trimming once. */
  lemma TrimIdempotent(s: string)
    ensures Trim(Trim(s)) == Trim(s)
  {
    var t := Trim(s);
    TrimSpec(s);
    assert LeadingSpaces(t) == 0;
    assert TrailingSpaces(t) == 0;
  }

  predicate StartsWith(s: string, prefix: string) {
    |prefix| <= |s| && s[..|prefix|] == prefix
  }

  /** A text starting with a longer prefix also starts with each of that prefix's own prefixes. */
  lemma StartsWithPrefix(s: string, longer: string, shorter: string)
    requires StartsWith(longer, shorter)
    ensures StartsWith(s, longer) ==> StartsWith(s, shorter)
  {
    if StartsWith(s, longer) {
      assert s[..|shorter|] == s[..|longer|][..|shorter|];
    }
  }

  predicate EndsWith(s: string, suffix: string) {
    |suffix| <= |s| && s[|s| - |suffix|..] == suffix
  }

  /** `s.indexOf(c)`, with `None` for -1. */
  function IndexOf(s: string, c: char): (r: Option<nat>)
    ensures r.Some? ==> r.value < |s|
  {
    if s == [] then None
    else if s[0] == c then Some(0)
    else match IndexOf(s[1..], c)
      case None => None
      case Some(i) => Some(i + 1)
  }

  /** `IndexOf` finds the first occurrence, and finds one whenever there is one. */
  lemma {:induction false} IndexOfSpec(s: string, c: char)
    ensures IndexOf(s, c).Some? ==> s[IndexOf(s, c).value] == c && c !in s[..IndexOf(s, c).value]
    ensures IndexOf(s, c).None? <==> c !in s
  {
    if s != [] && s[0] != c {
      IndexOfSpec(s[1..], c);
      assert s == [s[0]] + s[1..];
      if IndexOf(s[1..], c).Some? {
        var i := IndexOf(s[1..], c).value;
        assert s[..i + 1] == [s[0]] + s[1..][..i];
      }
    }
  }

  /** Searching past a prefix that does not hold the character. */
  lemma {:induction false} IndexOfConcat(a: string, b: string, c: char)
    requires c !in a
    ensures IndexOf(b, c).None? ==> IndexOf(a + b, c).None?
    ensures IndexOf(b, c).Some? ==> IndexOf(a + b, c) == Some(|a| + IndexOf(b, c).value)
  {
    if a == [] {
      assert a + b == b;
    } else {
      assert (a + b)[1..] == a[1..] + b;
      IndexOfConcat(a[1..], b, c);
    }
  }

  /** `s.split(sep)` for a one-character separator: always at least one part. */
  function Split(s: string, sep: char): (parts: seq<string>)
    ensures |parts| >= 1
    decreases |s|
  {
    match IndexOf(s, sep)
    case None => [s]
    case Some(i) => [s[..i]] + Split(s[i + 1..], sep)
  }

  /** Splitting at the first separator: the part before it, then the parts of the rest. */
  lemma SplitAtFirst(s: string, sep: char)
    requires IndexOf(s, sep).Some?
    ensures var i := IndexOf(s, sep).value;
      Split(s, sep) == [s[..i]] + Split(s[i + 1..], sep)
  {
  }

  /** No part holds the separator, and there is more than one part exactly when the separator occurs. */
  lemma {:induction false} SplitSpec(s: string, sep: char)
    ensures |Split(s, sep)| == 1 <==> sep !in s
    ensures forall i | 0 <= i < |Split(s, sep)| :: sep !in Split(s, sep)[i]
    decreases |s|
  {
    IndexOfSpec(s, sep);
    if IndexOf(s, sep).Some? {
      var i := IndexOf(s, sep).value;
      SplitSpec(s[i + 1..], sep);
    }
  }

  /** `parts.join(sep)`. */
  function Join(parts: seq<string>, sep: char): string {
    if parts == [] then ""
    else if |parts| == 1 then parts[0]
    else parts[0] + [sep] + Join(parts[1..], sep)
  }

  /** Joining the parts of a split gives back the string. */
  lemma {:induction false} JoinSplit(s: string, sep: char)
    ensures Join(Split(s, sep), sep) == s
    decreases |s|
  {
    match IndexOf(s, sep)
    case None =>
    case Some(i) =>
      IndexOfSpec(s, sep);
      var rest := Split(s[i + 1..], sep);
      JoinSplit(s[i + 1..], sep);
      var parts := [s[..i]] + rest;
      assert Split(s, sep) == parts;
      assert parts[1..] == rest;
      assert Join(parts, sep) == s[..i] + [sep] + Join(rest, sep);
      assert s == s[..i] + [sep] + s[i + 1..];
  }

  /** `s.split(sep)[0]`. */
  function FirstField(s: string, sep: char): string {
    Split(s, sep)[0]
  }

  /** The first field is the text before the first separator, or all of `s` when there is none. */
  lemma FirstFieldSpec(s: string, sep: char)
    ensures var r := FirstField(s, sep);
      sep !in r && StartsWith(s, r) && (r == s || (|r| < |s| && s[|r|] == sep))
  {
    IndexOfSpec(s, sep);
  }

  /** `s.split(/\s+/)[0]`: the text before the first whitespace character. */
  function FirstWord(s: string): (r: string)
    ensures |r| <= |s|
  {
    if s == [] || IsSpace(s[0]) then [] else [s[0]] + FirstWord(s[1..])
  }

  /** The first word holds no whitespace, starts `s`, and is followed by whitespace or the end. */
  lemma {:induction false} FirstWordSpec(s: string)
    ensures var r := FirstWord(s);
      && StartsWith(s, r)
      && (forall k | 0 <= k < |r| :: !IsSpace(r[k]))
      && (r == s || IsSpace(s[|r|]))
  {
    if s != [] && !IsSpace(s[0]) {
      FirstWordSpec(s[1..]);
      var r := FirstWord(s);
      assert r[1..] == FirstWord(s[1..]);
      assert forall k | 1 <= k < |r| :: r[k] == r[1..][k - 1];
    }
  }

  /** `sub` occurs in `s` at index `i`. */
  ghost predicate OccursAt(s: string, sub: string, i: nat) {
    i + |sub| <= |s| && s[i..i + |sub|] == sub
  }

  /** `s.includes(sub)`. */
  predicate Contains(s: string, sub: string)
    decreases |s|
  {
    StartsWith(s, sub) || (s != [] && Contains(s[1..], sub))
  }

  /** `Contains` holds exactly when `sub` occurs somewhere in `s`. */
  lemma ContainsIff(s: string, sub: string)
    ensures Contains(s, sub) <==> exists i: nat :: OccursAt(s, sub, i)
  {
    if Contains(s, sub) {
      var i := ContainsWitness(s, sub);
    }
    if exists i: nat :: OccursAt(s, sub, i) {
      var i: nat :| OccursAt(s, sub, i);
      OccursAtContains(s, sub, i);
    }
  }

  lemma {:induction false} ContainsWitness(s: string, sub: string) returns (i: nat)
    requires Contains(s, sub)
    ensures OccursAt(s, sub, i)
    decreases |s|
  {
    if StartsWith(s, sub) {
      i := 0;
      assert s[0..|sub|] == s[..|sub|];
    } else {
      var j := ContainsWitness(s[1..], sub);
      i := j + 1;
      assert s[1..][j..j + |sub|] == s[i..i + |sub|];
    }
  }

  lemma {:induction false} OccursAtContains(s: string, sub: string, i: nat)
    requires OccursAt(s, sub, i)
    ensures Contains(s, sub)
    decreases i
  {
    if i == 0 {
      assert s[..|sub|] == s[0..|sub|];
    } else {
      assert s[1..][i - 1..i - 1 + |sub|] == s[i..i + |sub|];
      OccursAtContains(s[1..], sub, i - 1);
    }
  }

  /** The number of decimal digits `s` starts with. */
  function LeadingDigits(s: string): (n: nat)
    ensures n <= |s|
  {
    if s != [] && IsDigit(s[0]) then 1 + LeadingDigits(s[1..]) else 0
  }

  lemma {:induction false} LeadingDigitsSpec(s: string)
    ensures AllDigits(s[..LeadingDigits(s)])
    ensures LeadingDigits(s) < |s| ==> !IsDigit(s[LeadingDigits(s)])
  {
    if s != [] && IsDigit(s[0]) {
      LeadingDigitsSpec(s[1..]);
    }
  }

  /** The value of a decimal digit (0 for any other character). */
  function DigitValue(c: char): nat {
    if IsDigit(c) then c as int - '0' as int else 0
  }

  /** The value of a decimal digit run, most significant digit first. */
  function DigitsValue(ds: string): nat {
    if ds == [] then 0 else DigitsValue(ds[..|ds| - 1]) * 10 + DigitValue(ds[|ds| - 1])
  }

  /**
   * `parseInt(s, 10)`, with `None` for NaN: leading whitespace is skipped, an
   * optional sign is read, then the longest run of decimal digits; no digit
   * gives NaN. Anything after the digits is ignored.
   */
  function ParseInt(s: string): Option<int> {
    var t := TrimStart(s);
    var negative := |t| > 0 && t[0] == '-';
    var body := if |t| > 0 && (t[0] == '-' || t[0] == '+') then t[1..] else t;
    var n := LeadingDigits(body);
    var magnitude: int := DigitsValue(body[..n]);
    if n == 0 then None
    else if negative then Some(-magnitude)
    else Some(magnitude)
  }

  /** `parseInt(s, 10) || 0`: NaN (and 0) become 0. */
  function IntOrZero(s: string): int {
    match ParseInt(s)
    case None => 0
    case Some(n) => n
  }

  /**
   * `parseFloat(s)` finds a number, rather than NaN: after leading whitespace
   * and an optional sign comes a digit, a `.` followed by a digit, or `Infinity`.
   */
  predicate HasFloatPrefix(s: string) {
    var t := TrimStart(s);
    var body := if |t| > 0 && (t[0] == '-' || t[0] == '+') then t[1..] else t;
    || (|body| > 0 && IsDigit(body[0]))
    || (|body| > 1 && body[0] == '.' && IsDigit(body[1]))
    || StartsWith(body, "Infinity")
  }

  /** The canonical decimal digits of `n`. */
  function Decimal(n: nat): (r: string)
    ensures |r| >= 1 && AllDigits(r)
  {
    if n < 10 then [('0' as int + n) as char]
    else Decimal(n / 10) + [('0' as int + n % 10) as char]
  }

  lemma {:induction false} DigitsValueDecimal(n: nat)
    ensures DigitsValue(Decimal(n)) == n
  {
    if n >= 10 {
      DigitsValueDecimal(n / 10);
      var d := Decimal(n);
      assert d[..|d| - 1] == Decimal(n / 10);
    }
  }

  /**
   * `parseInt` reads back the decimal digits of a number, whatever non-digit
   * text follows them.
   */
  lemma ParseIntDecimal(n: nat, rest: string)
    requires rest == [] || !IsDigit(rest[0])
    ensures ParseInt(Decimal(n) + rest) == Some(n)
  {
    var d := Decimal(n);
    DigitsValueDecimal(n);
    LeadingDigitsThenRest(d, rest);
    TakeConcatPrefix(d, rest);
    assert (d + rest)[0] == d[0];
    ParseIntUnsigned(d + rest, |d|);
  }

  lemma TakeConcatPrefix(d: string, rest: string)
    ensures (d + rest)[..|d|] == d
  {
  }

  /** Text that starts with a digit reads as the value of its leading digit run. */
  lemma ParseIntUnsigned(s: string, k: nat)
    requires s != [] && IsDigit(s[0])
    requires LeadingDigits(s) == k
    ensures ParseInt(s) == Some(DigitsValue(s[..k]) as int)
  {
    assert LeadingSpaces(s) == 0;
    assert TrimStart(s) == s;
  }

  lemma {:induction false} LeadingDigitsThenRest(d: string, rest: string)
    requires AllDigits(d)
    requires rest == [] || !IsDigit(rest[0])
    ensures LeadingDigits(d + rest) == |d|
  {
    if d != [] {
      assert (d + rest)[1..] == d[1..] + rest;
      LeadingDigitsThenRest(d[1..], rest);
    }
  }

  /** The value of a lower-case hexadecimal digit (0 for any other character). */
  function HexDigitValue(c: char): (v: nat)
    ensures v < 16
  {
    if IsDigit(c) then c as int - '0' as int
    else if 'a' <= c <= 'f' then c as int - 'a' as int + 10
    else 0
  }

  /** The value of a run of lower-case hexadecimal digits: `parseInt(s, 16)` for such a run. */
  function HexValue(s: string): nat {
    if s == [] then 0 else HexValue(s[..|s| - 1]) * 16 + HexDigitValue(s[|s| - 1])
  }

  function Pow16(k: nat): nat {
    if k == 0 then 1 else 16 * Pow16(k - 1)
  }

  /** `k` hexadecimal digits stay below 16^k. */
  lemma {:induction false} HexValueBound(s: string)
    ensures HexValue(s) < Pow16(|s|)
  {
    if s != [] {
      HexValueBound(s[..|s| - 1]);
    }
  }
}
