/**
  Python string behaviour that the prompt builder and the session rely on:
  optional values, truthiness, `str.strip`, `str.join`, and `str(int)`.
 */
module Text {

  /** Python's `X | None`. */
  datatype Option<+T> = None | Some(value: T) {
    /** Python's `x or default` for a value that is never falsy when present. */
    function GetOr(default: T): T {
      if Some? then value else default
    }
  }

  /** Truthiness of an optional string: `None` and `""` are falsy. */
  predicate Truthy(s: Option<string>) {
    s.Some? && s.value != ""
  }

  predicate StartsWith(s: string, prefix: string) {
    prefix <= s
  }

  predicate EndsWith(s: string, suffix: string) {
    |suffix| <= |s| && s[|s| - |suffix|..] == suffix
  }

  /** Python's `t in s` for strings: `t` occurs somewhere in `s`. */
  predicate Occurs(t: string, s: string) {
    exists i | 0 <= i <= |s| - |t| :: OccursAt(t, s, i)
  }

  /** `t` occurs in `s` starting at index `i`. */
  predicate OccursAt(t: string, s: string, i: int) {
    0 <= i <= |s| - |t| && s[i..i + |t|] == t
  }

  /** A string whose first character does not occur in `s` does not occur in `s`. */
  lemma {:induction false} AbsentLeadNotOccurs(t: string, s: string)
    requires t != [] && t[0] !in s
    ensures !Occurs(t, s)
  {
    forall i | 0 <= i <= |s| - |t|
      ensures !OccursAt(t, s, i)
    {
      assert s[i..i + |t|][0] == s[i];
    }
  }

  // ---------------------------------------------------------------------------
  // Whitespace and strip
  // ---------------------------------------------------------------------------

  /** Python's `str.isspace` for one character. */
  predicate IsSpace(c: char) {
    || ('\U{9}' <= c <= '\U{D}')
    || ('\U{1C}' <= c <= '\U{20}')
    || c == '\U{85}' || c == '\U{A0}' || c == '\U{1680}'
    || ('\U{2000}' <= c <= '\U{200A}')
    || c == '\U{2028}' || c == '\U{2029}' || c == '\U{202F}' || c == '\U{205F}' || c == '\U{3000}'
  }

  /** Every character of `s` is whitespace (this includes the empty string). */
  predicate IsBlank(s: string) {
    forall k | 0 <= k < |s| :: IsSpace(s[k])
  }

  /** The number of whitespace characters at the start of `s`. */
  function LeadingSpaces(s: string): (n: nat)
    ensures n <= |s|
    ensures forall k | 0 <= k < n :: IsSpace(s[k])
    ensures n < |s| ==> !IsSpace(s[n])
  {
    if s == [] || !IsSpace(s[0]) then 0 else 1 + LeadingSpaces(s[1..])
  }

  /** The number of whitespace characters at the end of `s`. */
  function TrailingSpaces(s: string): (n: nat)
    ensures n <= |s|
    ensures forall k | |s| - n <= k < |s| :: IsSpace(s[k])
    ensures n < |s| ==> !IsSpace(s[|s| - 1 - n])
  {
    if s == [] || !IsSpace(s[|s| - 1]) then 0 else 1 + TrailingSpaces(s[..|s| - 1])
  }

  /** Python's `str.strip()` with no argument. */
  function Strip(s: string): (r: string)
    ensures r == "" <==> IsBlank(s)
    ensures r != "" ==> !IsSpace(r[0]) && !IsSpace(r[|r| - 1])
  {
    var i := LeadingSpaces(s);
    if i == |s| then "" else s[i..|s| - TrailingSpaces(s)]
  }

  /** What strip removes is whitespace on both sides: the result is a slice of `s` with blank surroundings. */
  lemma StripIsTrimmedSlice(s: string)
    ensures exists i | 0 <= i <= |s| - |Strip(s)| :: TrimmedAt(s, Strip(s), i)
  {
    var i := LeadingSpaces(s);
    if i == |s| {
      assert s[0..0] == "" && IsBlank(s[..0]) && s[0..] == s;
      assert TrimmedAt(s, Strip(s), 0);
    } else {
      var j := |s| - TrailingSpaces(s);
      var r := s[i..j];
      assert Strip(s) == r;
      forall k | 0 <= k < |s[..i]| ensures IsSpace(s[..i][k]) {
        assert s[..i][k] == s[k];
      }
      forall k | 0 <= k < |s[j..]| ensures IsSpace(s[j..][k]) {
        assert s[j..][k] == s[j + k];
      }
      assert s[i..i + |r|] == r;
      assert TrimmedAt(s, r, i);
    }
  }

  /** `r` is the slice of `s` at `i`, with only whitespace before and after it. */
  predicate TrimmedAt(s: string, r: string, i: int) {
    0 <= i <= |s| - |r| && s[i..i + |r|] == r && IsBlank(s[..i]) && IsBlank(s[i + |r|..])
  }

  // ---------------------------------------------------------------------------
  // Join and concatenation
  // ---------------------------------------------------------------------------

  /** Python's `sep.join(parts)`. */
  function Join(sep: string, parts: seq<string>): string {
    if parts == [] then ""
    else if |parts| == 1 then parts[0]
    else Join(sep, parts[..|parts| - 1]) + sep + parts[|parts| - 1]
  }

  /** Joining one more part extends the joined text by the separator and that part. */
  lemma JoinAppend(sep: string, parts: seq<string>, x: string)
    ensures Join(sep, parts + [x]) == if parts == [] then x else Join(sep, parts) + sep + x
  {
    assert (parts + [x])[..|parts|] == parts;
  }

  /** A join of at least one part starts with the first part and ends with the last one. */
  lemma {:induction false} JoinEnds(sep: string, parts: seq<string>)
    requires parts != []
    ensures StartsWith(Join(sep, parts), parts[0])
    ensures EndsWith(Join(sep, parts), parts[|parts| - 1])
    decreases |parts|
  {
    if |parts| > 1 {
      var init, last := parts[..|parts| - 1], parts[|parts| - 1];
      JoinEnds(sep, init);
      assert init[0] == parts[0];
      PrefixOfConcat(Join(sep, init), sep + last);
      assert Join(sep, parts) == Join(sep, init) + (sep + last);
      PrefixTrans(parts[0], Join(sep, init), Join(sep, parts));
      SuffixOfConcat(Join(sep, init) + sep, last);
    }
  }

  /** String concatenation is associative. */
  lemma ConcatAssoc(a: string, b: string, c: string)
    ensures (a + b) + c == a + (b + c)
  {
  }

  /** The empty string is a right unit of concatenation. */
  lemma ConcatEmpty(a: string)
    ensures a + "" == a
  {
  }

  lemma PrefixOfConcat(a: string, b: string)
    ensures StartsWith(a + b, a)
  {
  }

  lemma SuffixOfConcat(a: string, b: string)
    ensures EndsWith(a + b, b)
  {
    assert (a + b)[|a|..] == b;
  }

  /** A text ending with `c` ends with `c + t` only if `c` itself ends with `t`. */
  lemma EndsWithExtension(r: string, c: string, t: string)
    requires EndsWith(r, c) && |t| <= |c| && !EndsWith(c, t)
    ensures !EndsWith(r, c + t)
  {
    assert r[|r| - |t|..] == c[|c| - |t|..];
    assert (c + t)[|c + t| - |t|..] == t;
  }

  lemma PrefixTrans(a: string, b: string, c: string)
    requires StartsWith(b, a) && StartsWith(c, b)
    ensures StartsWith(c, a)
  {
  }

  lemma DropPrefix(a: string, b: string)
    ensures (a + b)[|a|..] == b
  {
  }

  lemma HeadOfConcat(a: string, b: string)
    requires a != []
    ensures (a + b)[0] == a[0]
  {
  }

  /** A string that starts with a different character does not start with `p`. */
  lemma NotPrefixByHead(p: string, s: string)
    requires p != [] && s != [] && p[0] != s[0]
    ensures !StartsWith(s, p)
  {
  }

  /** `b` occurs in `a + b + c` right after `a`. */
  lemma OccursInMiddle(a: string, b: string, c: string)
    ensures OccursAt(b, a + b + c, |a|)
  {
    assert (a + b + c)[|a|..|a| + |b|] == b;
  }

  /** In-order concatenation of a sequence of tokens (`"".join(tokens)`). */
  function Concat(tokens: seq<string>): string {
    if tokens == [] then "" else Concat(tokens[..|tokens| - 1]) + tokens[|tokens| - 1]
  }

  // ---------------------------------------------------------------------------
  // Decimal rendering of integers (Python's `str(n)` inside an f-string)
  // ---------------------------------------------------------------------------

  function DigitChar(d: nat): char
    requires d < 10
  {
    (48 + d) as char
  }

  predicate IsDigit(c: char) {
    '0' <= c <= '9'
  }

  function NatToString(n: nat): (s: string)
    ensures s != [] && forall k | 0 <= k < |s| :: IsDigit(s[k])
  {
    if n < 10 then [DigitChar(n)] else NatToString(n / 10) + [DigitChar(n % 10)]
  }

  function IntToString(n: int): string {
    if n < 0 then "-" + NatToString(-n) else NatToString(n)
  }

  /** Reads a run of decimal digits back as a number. */
  function ParseNat(s: string): nat {
    if s == [] then 0
    else
      var d := s[|s| - 1] as int - 48;
      10 * ParseNat(s[..|s| - 1]) + (if 0 <= d < 10 then d else 0)
  }

  function ParseInt(s: string): int {
    if s != [] && s[0] == '-' then 0 - ParseNat(s[1..]) else ParseNat(s)
  }

  lemma {:induction false} NatRoundTrip(n: nat)
    ensures ParseNat(NatToString(n)) == n
  {
    if n >= 10 {
      NatRoundTrip(n / 10);
      var s := NatToString(n);
      assert s[..|s| - 1] == NatToString(n / 10);
    }
  }

  /** The decimal text of a week number determines the number. */
  lemma IntRoundTrip(n: int)
    ensures ParseInt(IntToString(n)) == n
  {
    if n < 0 {
      NatRoundTrip(-n);
      assert ("-" + NatToString(-n))[1..] == NatToString(-n);
    } else {
      NatRoundTrip(n);
    }
  }
}
