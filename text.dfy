/** The string builtins the post composer relies on: `in` on strings,
    `str.strip()`, `"\n".join(...)` and `str(int)`. */
module Text {

  /** Python's `str.isspace()` for one character, as used by `str.strip()`. */
  predicate IsSpace(c: char) {
    || c == ' ' || c == '\t' || c == '\n' || c == '\r'
    || c == '\U{0B}' || c == '\U{0C}'
    || ('\U{1C}' <= c <= '\U{1F}')
    || c == '\U{85}' || c == '\U{A0}' || c == '\U{1680}'
    || ('\U{2000}' <= c <= '\U{200A}')
    || c == '\U{2028}' || c == '\U{2029}' || c == '\U{202F}' || c == '\U{205F}' || c == '\U{3000}'
  }

  predicate AllSpace(s: string) {
    forall k :: 0 <= k < |s| ==> IsSpace(s[k])
  }

  /** Neither end of `s` is whitespace: what `strip()` guarantees of its result. */
  predicate Stripped(s: string) {
    s == [] || (!IsSpace(s[0]) && !IsSpace(s[|s| - 1]))
  }

  /** `s.lstrip()`: the suffix left after removing leading whitespace. */
  function TrimStart(s: string): (r: string)
    ensures |r| <= |s| && r == s[|s| - |r|..]
    ensures AllSpace(s[..|s| - |r|])
    ensures r == [] || !IsSpace(r[0])
  {
    if s != [] && IsSpace(s[0]) then TrimStart(s[1..]) else s
  }

  /** `s.rstrip()`: the prefix left after removing trailing whitespace. */
  function TrimEnd(s: string): (r: string)
    ensures |r| <= |s| && r == s[..|r|]
    ensures AllSpace(s[|r|..])
    ensures r == [] || !IsSpace(r[|r| - 1])
  {
    if s != [] && IsSpace(s[|s| - 1]) then TrimEnd(s[..|s| - 1]) else s
  }

  /** `s.strip()`: the slice of `s` between its leading and its trailing whitespace. */
  function Strip(s: string): (r: string)
    ensures Stripped(r)
  {
    TrimEnd(TrimStart(s))
  }

  /** What `strip()` removes is whitespace on either side and nothing else. */
  lemma StripSurrounds(s: string)
    ensures Surrounds(s, Strip(s), |s| - |TrimStart(s)|)
  {
    var t := TrimStart(s);
    var r := TrimEnd(t);
    assert Strip(s) == r;
    TrimmedBothSides(s, t, r);
  }

  /** Whitespace cut from the front, then from the back, leaves a slice
      with only whitespace around it. */
  lemma TrimmedBothSides(s: string, t: string, r: string)
    requires |t| <= |s| && t == s[|s| - |t|..] && AllSpace(s[..|s| - |t|])
    requires |r| <= |t| && r == t[..|r|] && AllSpace(t[|r|..])
    ensures Surrounds(s, r, |s| - |t|)
  {
    var i := |s| - |t|;
    assert s[i..][..|r|] == s[i..i + |r|];
    assert s[i..][|r|..] == s[i + |r|..];
  }

  /** `r` sits in `s` at offset `i` with only whitespace around it. */
  predicate Surrounds(s: string, r: string, i: int) {
    0 <= i <= |s| - |r| && r == s[i..i + |r|] && AllSpace(s[..i]) && AllSpace(s[i + |r|..])
  }

  /** Stripping text that already has no outer whitespace changes nothing,
      so in particular `Strip` is idempotent. */
  lemma {:induction false} StripStripped(s: string)
    requires Stripped(s)
    ensures Strip(s) == s
  {
    assert TrimStart(s) == s;
    assert TrimEnd(s) == s;
  }

  lemma StripIdempotent(s: string)
    ensures Strip(Strip(s)) == Strip(s)
  {
    StripStripped(Strip(s));
  }

  /** `tok` occurs in `s` at offset zero. */
  predicate StartsWith(s: string, tok: string) {
    |tok| <= |s| && s[..|tok|] == tok
  }

  /** Python's `tok in s` on strings: `tok` is a contiguous substring of `s`. */
  predicate Contains(s: string, tok: string)
    decreases |s|
  {
    StartsWith(s, tok) || (s != [] && Contains(s[1..], tok))
  }

  /** `Contains` agrees with the definition by offsets, in both directions. */
  lemma {:induction false} ContainsAt(s: string, tok: string)
    ensures Contains(s, tok) <==> exists i :: OccursAt(s, tok, i)
    decreases |s|
  {
    if StartsWith(s, tok) {
      assert OccursAt(s, tok, 0);
    } else if s != [] {
      ContainsAt(s[1..], tok);
      if exists i :: OccursAt(s, tok, i) {
        var i :| OccursAt(s, tok, i);
        assert i != 0;
        assert OccursAt(s[1..], tok, i - 1);
      }
      if exists i :: OccursAt(s[1..], tok, i) {
        var i :| OccursAt(s[1..], tok, i);
        assert OccursAt(s, tok, i + 1);
      }
    } else {
      assert forall i :: !OccursAt(s, tok, i);
    }
  }

  /** `tok` occurs in `s` at offset `i`. */
  predicate OccursAt(s: string, tok: string, i: int) {
    0 <= i <= |s| - |tok| && s[i..i + |tok|] == tok
  }

  /** `sep.join(parts)`. */
  function Join(parts: seq<string>, sep: string): string
  {
    if parts == [] then []
    else if |parts| == 1 then parts[0]
    else parts[0] + sep + Join(parts[1..], sep)
  }

  /** `s.split("\n")`: the lines of `s`, never an empty list. */
  function Lines(s: string): (r: seq<string>)
    ensures |r| >= 1
  {
    if s == [] then [[]]
    else
      var rest := Lines(s[1..]);
      if s[0] == '\n' then [[]] + rest else [[s[0]] + rest[0]] + rest[1..]
  }

  predicate NoNewline(s: string) {
    forall k :: 0 <= k < |s| ==> s[k] != '\n'
  }

  lemma {:induction false} LinesOfLine(s: string, tail: string)
    requires NoNewline(s)
    ensures Lines(s + tail) == [s + Lines(tail)[0]] + Lines(tail)[1..]
    decreases |s|
  {
    if s != [] {
      assert (s + tail)[1..] == s[1..] + tail;
      LinesOfLine(s[1..], tail);
      assert [s[0]] + (s[1..] + Lines(tail)[0]) == s + Lines(tail)[0];
    } else {
      assert s + tail == tail;
      assert s + Lines(tail)[0] == Lines(tail)[0];
    }
  }

  /** Splitting a newline-join of newline-free lines gives back those lines. */
  lemma {:induction false} LinesOfJoin(parts: seq<string>)
    requires |parts| >= 1
    requires forall k :: 0 <= k < |parts| ==> NoNewline(parts[k])
    ensures Lines(Join(parts, "\n")) == parts
    decreases |parts|
  {
    if |parts| == 1 {
      LinesOfLine(parts[0], []);
      assert parts[0] + [] == parts[0];
    } else {
      var tail := Join(parts[1..], "\n");
      LinesOfJoin(parts[1..]);
      assert Join(parts, "\n") == parts[0] + ("\n" + tail);
      LinesOfLine(parts[0], "\n" + tail);
      assert ("\n" + tail)[1..] == tail;
      assert Lines("\n" + tail) == [[]] + parts[1..];
      assert parts[0] + [] == parts[0];
    }
  }

  function DigitChar(d: nat): char
    requires d < 10
  {
    "0123456789"[d]
  }

  predicate IsDigit(c: char) {
    '0' <= c <= '9'
  }

  predicate AllDigits(s: string) {
    forall k :: 0 <= k < |s| ==> IsDigit(s[k])
  }

  /** What Python's `int()` accepts here: digits with an optional leading minus. */
  predicate Numeral(s: string) {
    |s| >= 1 && (AllDigits(s) || (s[0] == '-' && |s| >= 2 && AllDigits(s[1..])))
  }

  function DigitValue(c: char): nat
    requires IsDigit(c)
  {
    (c - '0') as nat
  }

  /** `n // 10`, by repeated subtraction. */
  function Div10(n: nat): (q: nat)
    ensures 10 * q <= n < 10 * q + 10
    decreases n
  {
    if n < 10 then 0 else 1 + Div10(n - 10)
  }

  /** The decimal digits of `n`, most significant first, without leading zeros. */
  function NatToString(n: nat): string
    decreases n
  {
    if n < 10 then [DigitChar(n)] else NatToString(Div10(n)) + [DigitChar(n - 10 * Div10(n))]
  }

  /** `str(i)` for a Python int. */
  function IntToString(i: int): string {
    if i < 0 then "-" + NatToString(-i) else NatToString(i)
  }

  /** The value of a string of decimal digits. */
  function DigitsValue(s: string): nat
    requires AllDigits(s)
  {
    if s == [] then 0 else 10 * DigitsValue(s[..|s| - 1]) + DigitValue(s[|s| - 1])
  }

  /** `int(s)` on a numeral. */
  function ParseInt(s: string): int
    requires Numeral(s)
  {
    if s[0] == '-' then -(DigitsValue(s[1..]) as int) else DigitsValue(s)
  }

  /** `str(n)` is a non-empty run of digits that starts with `0` only for zero. */
  lemma {:induction false} NatToStringDigits(n: nat)
    ensures |NatToString(n)| >= 1 && AllDigits(NatToString(n))
    ensures NatToString(n)[0] == '0' ==> n == 0
    decreases n
  {
    if n >= 10 {
      NatToStringDigits(Div10(n));
      assert NatToString(n)[0] == NatToString(Div10(n))[0];
    }
  }

  lemma {:induction false} NatToStringValue(n: nat)
    ensures AllDigits(NatToString(n)) && DigitsValue(NatToString(n)) == n
    decreases n
  {
    NatToStringDigits(n);
    var r := NatToString(n);
    if n < 10 {
      assert r[..0] == [];
    } else {
      var q := Div10(n);
      NatToStringValue(q);
      assert r[..|r| - 1] == NatToString(q);
    }
  }

  /** `int(str(i)) == i`: the decimal rendering of a number loses nothing. */
  lemma IntToStringRoundTrip(i: int)
    ensures Numeral(IntToString(i)) && ParseInt(IntToString(i)) == i
  {
    if i < 0 {
      NegativeRoundTrip(-i);
    } else {
      NatRoundTrip(i);
    }
  }

  lemma NatRoundTrip(n: nat)
    ensures Numeral(NatToString(n)) && ParseInt(NatToString(n)) == n
  {
    NatToStringValue(n);
    NatToStringDigits(n);
    var s := NatToString(n);
    assert IsDigit(s[0]);
  }

  lemma NegativeRoundTrip(n: nat)
    requires n >= 1
    ensures Numeral("-" + NatToString(n)) && ParseInt("-" + NatToString(n)) == -(n as int)
  {
    NatToStringValue(n);
    NatToStringDigits(n);
    var s := "-" + NatToString(n);
    assert s[0] == '-' && s[1..] == NatToString(n);
  }
}
