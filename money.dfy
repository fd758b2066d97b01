/** Money in integer cents: `number_format($x, 2, $point, '')` and the decimal
    amounts a shop owner types into a setting. */
module Money {
  import opened Options
  import opened Decimal
  import opened PhpText
  import opened Seqs

  /** `number_format($c / 100, 2, $point, '')`: a `-` for a negative amount, the whole
      units without thousands separators, `point`, then exactly two digits of cents. */
  function FormatCents(c: int, point: char): string {
    var m := if c < 0 then -c else c;
    (if c < 0 then "-" else "") + NatText(m / 100) + [point] + Padded(m % 100, 2)
  }

  /** The position of the first `c` in `s`, or `|s|`. */
  function IndexOfChar(s: string, c: char): (i: nat)
    ensures i <= |s|
    ensures i < |s| ==> s[i] == c
    ensures forall j :: 0 <= j < i ==> s[j] != c
  {
    if s == [] then 0 else if s[0] == c then 0 else 1 + IndexOfChar(s[1..], c)
  }

  /** Cents denoted by at most two fractional digits. */
  function FractionCents(f: string): nat
    requires AllDigits(f) && |f| <= 2
  {
    if |f| == 2 then DigitsValue(f) else if |f| == 1 then DigitsValue(f) * 10 else 0
  }

  /** An unsigned amount: digits, optionally `point` and at most two more digits; at least one digit in all. */
  function ParseUnsigned(s: string, point: char): Option<nat> {
    var i := IndexOfChar(s, point);
    var whole := s[..i];
    var frac := if i < |s| then s[i + 1..] else "";
    if AllDigits(whole) && AllDigits(frac) && |frac| <= 2 && |whole| + |frac| >= 1
    then Some(DigitsValue(whole) * 100 + FractionCents(frac))
    else None
  }

  /** A decimal amount in cents, with an optional leading `-`; `None` for any other text. */
  function ParseAmount(s: string, point: char): Option<int> {
    if |s| > 0 && s[0] == '-' then
      match ParseUnsigned(s[1..], point)
      case Some(v) => Some(-(v as int))
      case None => None
    else
      match ParseUnsigned(s, point)
      case Some(v) => Some(v as int)
      case None => None
  }

  /** The boleto surcharge setting read as an amount after every `,` became `.`; 0 when it is not one. */
  function RateCents(rate: string): int {
    ParseAmount(ReplaceChar(rate, ',', '.'), '.').GetOr(0)
  }

  lemma IndexAfterDigits(t: string, p: char, rest: string)
    requires AllDigits(t) && !IsDigit(p)
    ensures IndexOfChar(t + [p] + rest, p) == |t|
  {
    var s := t + [p] + rest;
    assert s[|t|] == p;
    assert forall j :: 0 <= j < |t| ==> s[j] == t[j];
  }

  /** The parts `FormatCents` is made of: the sign, the whole units, `point`, two digits of cents. */
  lemma FormatCentsParts(c: int, point: char, m: nat, whole: string, frac: string)
    requires m == (if c < 0 then -c else c)
    requires whole == NatText(m / 100) && frac == Padded(m % 100, 2)
    ensures FormatCents(c, point) == (if c < 0 then "-" else "") + whole + [point] + frac
    ensures AllDigits(whole) && |whole| >= 1 && DigitsValue(whole) == m / 100
    ensures AllDigits(frac) && |frac| == 2 && DigitsValue(frac) == m % 100
  {
    NatTextValue(m / 100);
    NatTextLength(m % 100, 2);
    PaddedValue(m % 100, 2);
  }

  /** An unsigned amount as `FormatCents` writes it reads back as its cents. */
  lemma ParseFormatted(m: nat, point: char, whole: string, frac: string)
    requires !IsDigit(point)
    requires AllDigits(whole) && |whole| >= 1 && DigitsValue(whole) == m / 100
    requires AllDigits(frac) && |frac| == 2 && DigitsValue(frac) == m % 100
    ensures ParseUnsigned(whole + [point] + frac, point) == Some(m)
  {
    var s := whole + [point] + frac;
    IndexAfterDigits(whole, point, frac);
    assert s[..|whole|] == whole;
    assert s[|whole| + 1..] == frac;
  }

  /** `number_format` with a non-digit separator other than `-` is read back exactly. */
  lemma ParseFormatCents(c: int, point: char)
    requires !IsDigit(point) && point != '-'
    ensures ParseAmount(FormatCents(c, point), point) == Some(c)
  {
    var m := if c < 0 then -c else c;
    var body := FormatCentsBody(c, point, m);
    ParseSigned(body, point, m, FormatCents(c, point), c);
  }

  /** `FormatCents` as a sign in front of an unsigned amount that reads back as `m`. */
  lemma FormatCentsBody(c: int, point: char, m: nat) returns (body: string)
    requires !IsDigit(point) && m == (if c < 0 then -c else c)
    ensures ParseUnsigned(body, point) == Some(m)
    ensures |body| > 0 && body[0] != '-' && FormatCents(c, point) == (if c < 0 then "-" else "") + body
  {
    var whole, frac := NatText(m / 100), Padded(m % 100, 2);
    FormatCentsParts(c, point, m, whole, frac);
    ParseFormatted(m, point, whole, frac);
    body := whole + [point] + frac;
    assert body[0] == whole[0];
    var sign := if c < 0 then "-" else "";
    ConcatAssoc(sign, whole, [point]);
    ConcatAssoc(sign, whole + [point], frac);
  }

  /** A sign in front of an unsigned amount negates it. */
  lemma ParseSigned(body: string, point: char, m: nat, r: string, c: int)
    requires ParseUnsigned(body, point) == Some(m) && m == (if c < 0 then -c else c)
    requires |body| > 0 && body[0] != '-' && r == (if c < 0 then "-" else "") + body
    ensures ParseAmount(r, point) == Some(c)
  {
    if c < 0 {
      assert r[1..] == body;
    } else {
      assert r == body;
    }
  }

  /** Exactly two digits follow the separator, and it occurs nowhere else. */
  lemma FormatCentsShape(c: int, point: char)
    requires !IsDigit(point) && point != '-'
    ensures var r := FormatCents(c, point);
      |r| >= 4 && r[|r| - 3] == point && AllDigits(r[|r| - 2..])
      && point !in r[..|r| - 3] && (r[0] == '-' <==> c < 0)
  {
    var m := if c < 0 then -c else c;
    var whole, frac := NatText(m / 100), Padded(m % 100, 2);
    FormatCentsParts(c, point, m, whole, frac);
    var sign := if c < 0 then "-" else "";
    var r := FormatCents(c, point);
    assert r == sign + whole + [point] + frac;
    assert r[..|r| - 3] == sign + whole;
    assert r[|r| - 2..] == frac;
    if c >= 0 {
      assert r[0] == whole[0];
    }
  }

  /** The two steps the plugin takes, `str_replace` then the numeric read, give `RateCents`. */
  lemma RateCentsOf(rate: string, replaced: string, surchargeCents: int)
    requires replaced == ReplaceChar(rate, ',', '.') && surchargeCents == ParseAmount(replaced, '.').GetOr(0)
    ensures surchargeCents == RateCents(rate)
  {
  }

  /** A rate typed with a decimal comma is the same as with a decimal point. */
  lemma RateCommaOrPoint(rate: string)
    ensures RateCents(rate) == RateCents(ReplaceChar(rate, ',', '.'))
  {
    ReplaceCharSound(rate, ',', '.');
  }

  /** The surcharge typed as "2,95" is 2.95. */
  lemma RateExample()
    ensures RateCents("2,95") == 295
  {
    assert ReplaceChar("2,95", ',', '.') == "2.95";
    var s := "2.95";
    assert IndexOfChar(s, '.') == 1;
    assert s[..1] == "2" && s[2..] == "95";
    assert DigitsValue("95") == 95;
  }

  lemma FormatExample()
    ensures FormatCents(5285, ',') == "52,85"
  {
    assert NatText(52) == "52" by { assert NatText(5) == "5"; }
    assert Padded(85, 2) == "85" by { assert NatText(8) == "8"; assert NatText(85) == "85"; }
    FormatCentsParts(5285, ',', 5285, NatText(52), Padded(85, 2));
  }

  /** An order of 49.90 with the surcharge typed as "2,95" is billed "52,85". */
  lemma SurchargeExample()
    ensures FormatCents(4990 + RateCents("2,95"), ',') == "52,85"
  {
    RateExample();
    FormatExample();
  }
}
