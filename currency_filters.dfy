/**
 * products/templatetags/currency_filters.py: `usd_to_inr` turns a dollar amount into a rupee
 * string at 83 rupees to the dollar, rounded to whole rupees and grouped by thousands with
 * commas behind a "₹". A value `float()` rejects is handed back unchanged.
 */
module CurrencyFilters {

  /** What the template passes in: a whole-dollar amount, or something `float()` cannot convert. */
  datatype FilterInput = Whole(amount: int) | Unconvertible(text: string)

  const InrPerUsd: int := 83
  const RupeeSign: char := '\U{20B9}'

  predicate IsDigit(c: char) {
    '0' <= c <= '9'
  }

  predicate AllDigits(s: string) {
    forall i :: 0 <= i < |s| ==> IsDigit(s[i])
  }

  function DigitChar(d: int): (c: char)
    requires 0 <= d <= 9
    ensures IsDigit(c) && c as int - '0' as int == d
  {
    ('0' as int + d) as char
  }

  /** The decimal numeral of `n`, most significant digit first, without leading zeros. */
  function DecimalDigits(n: nat): (s: string)
    ensures |s| >= 1 && AllDigits(s)
    ensures n >= 10 ==> s[0] != '0'
  {
    if n < 10 then [DigitChar(n)] else DecimalDigits(n / 10) + [DigitChar(n % 10)]
  }

  /** The number a string of decimal digits denotes. */
  function DigitsValue(s: string): nat
    requires AllDigits(s)
  {
    if s == [] then 0 else 10 * DigitsValue(s[..|s| - 1]) + (s[|s| - 1] as int - '0' as int)
  }

  /** Reading the numeral back gives the number. */
  lemma {:induction false} DigitsValueOfDecimalDigits(n: nat)
    ensures DigitsValue(DecimalDigits(n)) == n
  {
    if n >= 10 {
      var s := DecimalDigits(n);
      assert s[..|s| - 1] == DecimalDigits(n / 10);
      DigitsValueOfDecimalDigits(n / 10);
    }
  }

  /** Python's `,` format option: a comma before every group of three digits counted from the right. */
  function GroupThousands(s: string): (t: string)
    ensures |s| >= 1 ==> |t| >= 1
    decreases |s|
  {
    if |s| <= 3 then s else GroupThousands(s[..|s| - 3]) + [','] + s[|s| - 3..]
  }

  function DropCommas(t: string): string {
    if t == [] then []
    else DropCommas(t[..|t| - 1]) + (if t[|t| - 1] == ',' then [] else [t[|t| - 1]])
  }

  lemma {:induction false} DropCommasAppend(a: string, b: string)
    ensures DropCommas(a + b) == DropCommas(a) + DropCommas(b)
    decreases |b|
  {
    if b == [] {
      assert a + b == a;
    } else {
      assert (a + b)[|a + b| - 1] == b[|b| - 1];
      assert (a + b)[..|a + b| - 1] == a + b[..|b| - 1];
      DropCommasAppend(a, b[..|b| - 1]);
    }
  }

  /** Removing the commas from a grouped numeral gives back its digits. */
  lemma {:induction false} DropCommasOfGrouped(s: string)
    requires AllDigits(s)
    ensures DropCommas(GroupThousands(s)) == s
    decreases |s|
  {
    if |s| <= 3 {
      NoCommasUnchanged(s);
    } else {
      var head, tail := s[..|s| - 3], s[|s| - 3..];
      DropCommasOfGrouped(head);
      DropCommasAppend(GroupThousands(head), [',']);
      DropCommasAppend(GroupThousands(head) + [','], tail);
      NoCommasUnchanged(tail);
      assert [','][..0] == [];
      assert s == head + tail;
    }
  }

  lemma {:induction false} NoCommasUnchanged(s: string)
    requires AllDigits(s)
    ensures DropCommas(s) == s
    decreases |s|
  {
    if s != [] {
      NoCommasUnchanged(s[..|s| - 1]);
    }
  }

  /**
   * Shape of a grouped numeral: it starts with a digit and the commas sit exactly at the
   * positions a multiple of four from the end, so every group after the first has three digits
   * and the first has one to three.
   */
  predicate WellGrouped(t: string) {
    && |t| >= 1 && IsDigit(t[0])
    && forall j :: 0 <= j < |t| ==> ((t[j] == ',') <==> (|t| - j) % 4 == 0) && (t[j] == ',' || IsDigit(t[j]))
  }

  /** A comma and three more digits behind a well-grouped numeral keep it well grouped. */
  lemma AppendGroupWellGrouped(g: string, tail: string)
    requires WellGrouped(g) && |tail| == 3 && AllDigits(tail)
    ensures WellGrouped(g + [','] + tail)
  {
    var t := g + [','] + tail;
    assert t[0] == g[0];
    forall j | 0 <= j < |t|
      ensures ((t[j] == ',') <==> (|t| - j) % 4 == 0) && (t[j] == ',' || IsDigit(t[j]))
    {
      if j < |g| {
        assert t[j] == g[j];
        assert |t| - j == (|g| - j) + 4;
      } else if j == |g| {
        assert t[j] == ',';
      } else {
        assert t[j] == tail[j - |g| - 1];
        assert 1 <= |t| - j <= 3;
      }
    }
  }

  lemma {:induction false} GroupThousandsWellGrouped(s: string)
    requires |s| >= 1 && AllDigits(s)
    ensures WellGrouped(GroupThousands(s))
    decreases |s|
  {
    if |s| > 3 {
      var head, tail := s[..|s| - 3], s[|s| - 3..];
      GroupThousandsWellGrouped(head);
      AppendGroupWellGrouped(GroupThousands(head), tail);
    } else {
      assert forall j :: 0 <= j < |s| ==> IsDigit(s[j]) && 1 <= |s| - j <= 3;
    }
  }

  /** The rupee amount `round(a * 83)` of a whole-dollar amount, without its sign. */
  function RupeeMagnitude(a: int): (m: nat)
    ensures m == if a < 0 then -InrPerUsd * a else InrPerUsd * a
  {
    var inr := a * InrPerUsd;
    if inr < 0 then -inr else inr
  }

  /**
   * `usd_to_inr`: a value `float()` rejects comes back as it was; a whole-dollar amount becomes
   * "₹", a minus sign exactly for a negative amount, and the grouped digits of the rupee amount.
   */
  function UsdToInr(v: FilterInput): (r: string)
    ensures v.Unconvertible? ==> r == v.text
    ensures v.Whole? ==> |r| >= 2 && r[0] == RupeeSign && (r[1] == '-' <==> v.amount < 0)
  {
    match v
    case Unconvertible(text) => text
    case Whole(a) =>
      var g := GroupThousands(DecimalDigits(RupeeMagnitude(a)));
      FirstIsDigit(RupeeMagnitude(a));
      [RupeeSign] + (if a * InrPerUsd < 0 then "-" else "") + g
  }

  /** The grouped numeral reads back, without its commas, as the rupee amount. */
  lemma {:induction false} GroupedNumeralReadsBack(n: nat)
    ensures WellGrouped(GroupThousands(DecimalDigits(n)))
    ensures DropCommas(GroupThousands(DecimalDigits(n))) == DecimalDigits(n)
    ensures DigitsValue(DecimalDigits(n)) == n
  {
    GroupThousandsWellGrouped(DecimalDigits(n));
    DropCommasOfGrouped(DecimalDigits(n));
    DigitsValueOfDecimalDigits(n);
  }

  /**
   * For a whole-dollar amount the output is "₹", a minus sign exactly when the amount is
   * negative, then a well-grouped numeral that reads back, without its commas, as 83 times the
   * amount in magnitude.
   */
  lemma UsdToInrReadsBack(a: int)
    ensures var r := UsdToInr(Whole(a));
      var body := if a < 0 then r[2..] else r[1..];
      && |r| >= 2 && r[0] == RupeeSign
      && (a < 0 <==> r[1] == '-')
      && WellGrouped(body)
      && DropCommas(body) == DecimalDigits(RupeeMagnitude(a))
      && DigitsValue(DecimalDigits(RupeeMagnitude(a))) == (if a < 0 then -83 * a else 83 * a)
  {
    var g := GroupThousands(DecimalDigits(RupeeMagnitude(a)));
    var r := UsdToInr(Whole(a));
    var body := if a < 0 then r[2..] else r[1..];
    assert |r| >= 2 && r[0] == RupeeSign && body == g && (a < 0 <==> r[1] == '-') by {
      FirstIsDigit(RupeeMagnitude(a));
      if a < 0 {
        assert r == [RupeeSign] + "-" + g;
      } else {
        assert r == [RupeeSign] + g;
        assert r[1] == g[0];
      }
    }
    GroupedNumeralReadsBack(RupeeMagnitude(a));
  }

  lemma FirstIsDigit(n: nat)
    ensures IsDigit(GroupThousands(DecimalDigits(n))[0])
  {
    GroupThousandsKeepsFirst(DecimalDigits(n));
  }

  /** Grouping never puts a comma in front: the first character is the numeral's first digit. */
  lemma {:induction false} GroupThousandsKeepsFirst(s: string)
    requires |s| >= 1
    ensures GroupThousands(s)[0] == s[0]
    decreases |s|
  {
    if |s| > 3 {
      GroupThousandsKeepsFirst(s[..|s| - 3]);
    }
  }

  /** A value `float()` rejects comes back as it was. */
  lemma UnconvertibleUnchanged(text: string)
    ensures UsdToInr(Unconvertible(text)) == text
  {
  }
}
