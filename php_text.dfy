/** The PHP string behaviour the plugin relies on: `empty()`, truthiness,
    one-character `str_replace` and the `(int)` cast. */
module PhpText {
  import opened Decimal

  /** `empty($s)` for a string: only `""` and `"0"` are empty. */
  predicate IsEmpty(s: string) {
    s == "" || s == "0"
  }

  /** A string in a boolean context (`if ($s)`) is false exactly when it is empty. */
  predicate Truthy(s: string) {
    !IsEmpty(s)
  }

  /** `str_replace($from, $to, $s)` for one-character search and replacement strings. */
  function ReplaceChar(s: string, from: char, to: char): (r: string)
    ensures |r| == |s|
    ensures forall i :: 0 <= i < |s| ==> r[i] == if s[i] == from then to else s[i]
  {
    if s == [] then []
    else ReplaceChar(s[..|s| - 1], from, to) + [if s[|s| - 1] == from then to else s[|s| - 1]]
  }

  /** After the replacement no `from` is left, and replacing again changes nothing. */
  lemma ReplaceCharSound(s: string, from: char, to: char)
    requires from != to
    ensures from !in ReplaceChar(s, from, to)
    ensures ReplaceChar(ReplaceChar(s, from, to), from, to) == ReplaceChar(s, from, to)
  {
  }

  /** The whitespace PHP skips in front of a numeric string. */
  predicate IsSpace(c: char) {
    c == ' ' || c == '\t' || c == '\n' || c == '\r' || c == '\U{000b}' || c == '\U{000c}'
  }

  function SkipSpace(s: string): (r: string)
    ensures |r| <= |s| && r == s[|s| - |r|..]
    ensures |r| > 0 ==> !IsSpace(r[0])
  {
    if s != [] && IsSpace(s[0]) then SkipSpace(s[1..]) else s
  }

  /** The longest run of digits `s` starts with. */
  function DigitPrefix(s: string): (r: string)
    ensures AllDigits(r) && |r| <= |s| && r == s[..|r|]
    ensures |r| < |s| ==> !IsDigit(s[|r|])
  {
    if s != [] && IsDigit(s[0]) then [s[0]] + DigitPrefix(s[1..]) else []
  }

  /** `(int) $s`: whitespace, an optional sign, then as many digits as follow; 0 when there are none. */
  function IntCast(s: string): int {
    var t := SkipSpace(s);
    if |t| > 0 && t[0] == '-' then -(DigitsValue(DigitPrefix(t[1..])) as int)
    else if |t| > 0 && t[0] == '+' then DigitsValue(DigitPrefix(t[1..]))
    else DigitsValue(DigitPrefix(t))
  }

  lemma {:induction false} DigitPrefixOfDigits(d: string, rest: string)
    requires AllDigits(d) && (rest != [] ==> !IsDigit(rest[0]))
    ensures DigitPrefix(d + rest) == d
    decreases |d|
  {
    if d == [] {
      assert d + rest == rest;
    } else {
      assert (d + rest)[1..] == d[1..] + rest;
      DigitPrefixOfDigits(d[1..], rest);
    }
  }

  /** A string starting with a digit casts to the value of its leading digits. */
  lemma CastFromDigit(s: string)
    requires s != [] && IsDigit(s[0])
    ensures IntCast(s) == DigitsValue(DigitPrefix(s))
  {
    assert !IsSpace(s[0]);
    assert SkipSpace(s) == s;
    assert s[0] != '-' && s[0] != '+';
  }

  /** A string starting with `-` casts to minus the value of the digits after it. */
  lemma CastFromMinus(s: string)
    requires s != [] && s[0] == '-'
    ensures IntCast(s) == -(DigitsValue(DigitPrefix(s[1..])) as int)
  {
    assert !IsSpace(s[0]);
    assert SkipSpace(s) == s;
  }

  /** Digits followed by a non-digit cast to the number the digits denote. */
  lemma CastNatText(n: nat, rest: string)
    requires rest != [] ==> !IsDigit(rest[0])
    ensures IntCast(NatText(n) + rest) == n
  {
    var t := NatText(n);
    assert (t + rest)[0] == t[0];
    CastFromDigit(t + rest);
    DigitPrefixOfDigits(t, rest);
    NatTextValue(n);
  }

  lemma CastNegatedNatText(n: nat, rest: string)
    requires rest != [] ==> !IsDigit(rest[0])
    ensures IntCast("-" + NatText(n) + rest) == -(n as int)
  {
    var t := NatText(n);
    var s := "-" + t + rest;
    assert s[0] == '-' && s[1..] == t + rest;
    CastFromMinus(s);
    DigitPrefixOfDigits(t, rest);
    NatTextValue(n);
  }

  /** `(int)` reads a number written in decimal, followed by any non-digit text, back as that number. */
  lemma IntCastIntText(i: int, rest: string)
    requires rest != [] ==> !IsDigit(rest[0])
    ensures IntCast(IntText(i) + rest) == i
  {
    var s := IntText(i) + rest;
    if i < 0 {
      var n: nat := -i;
      assert IntText(i) == "-" + NatText(n);
      CastNegatedNatText(n, rest);
      assert s == "-" + NatText(n) + rest;
    } else {
      var n: nat := i;
      assert IntText(i) == NatText(n);
      CastNatText(n, rest);
      assert s == NatText(n) + rest;
    }
  }

  /** A string that starts with neither whitespace, a sign nor a digit casts to 0. */
  lemma IntCastNonNumeric(s: string)
    requires s == [] || !(IsSpace(s[0]) || s[0] == '-' || s[0] == '+' || IsDigit(s[0]))
    ensures IntCast(s) == 0
  {
  }
}
