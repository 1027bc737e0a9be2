/** create_time_format_string of utils.h: milliseconds as H:MM:SS.mmm, without the hours when
    there are none, and the parser that shows that nothing is lost. The division truncates, so
    every field of a negative duration that is not zero has its own sign, behind the padding. */
module TimeFormat {
  function Digit(d: nat): char
    requires d < 10
  {
    '0' + d as char
  }

  predicate IsDigit(c: char) { '0' <= c <= '9' }

  function Decimal(n: nat): (r: string)
    ensures r != [] && forall i :: 0 <= i < |r| ==> IsDigit(r[i])
  {
    if n < 10 then [Digit(n)] else Decimal(n / 10) + [Digit(n % 10)]
  }

  function Zeros(n: nat): (r: string)
    ensures |r| == n && forall i :: 0 <= i < n ==> r[i] == '0'
  {
    seq(n, _ => '0')
  }

  function Signed(neg: bool, n: nat): int { if neg then 0 - n else n }

  function Abs(t: int): nat { if t < 0 then 0 - t else t }

  /** A number with its sign. */
  function Number(neg: bool, n: nat): string {
    if neg && n != 0 then "-" + Decimal(n) else Decimal(n)
  }

  /** std::setw(width) and std::setfill('0') */
  function Padded(neg: bool, n: nat, width: nat): string {
    var d := Number(neg, n);
    if |d| < width then Zeros(width - |d|) + d else d
  }

  /** Zeros up to the width, and the number, which is never cut. */
  lemma PaddedIs(neg: bool, n: nat, width: nat)
    ensures var p, d := Padded(neg, n, width), Number(neg, n);
      && |p| == (if |d| < width then width else |d|)
      && (forall i :: 0 <= i < |p| - |d| ==> p[i] == '0') && p[|p| - |d|..] == d
  {
  }

  /** A number has no zeros in front. */
  lemma {:induction false} DecimalIsShort(n: nat)
    ensures n != 0 ==> Decimal(n)[0] != '0'
    ensures |Decimal(n)| == 1 <==> n < 10
    ensures n >= 10 ==> |Decimal(n)| == |Decimal(n / 10)| + 1
  {
    if n < 10 {
    } else {
      DecimalIsShort(n / 10);
    }
  }

  const HOUR := 3_600_000
  const MINUTE := 60_000
  const SECOND := 1_000

  /** All four fields of -t or t. */
  function Full(neg: bool, t: nat): string {
    Padded(neg, t / HOUR, 2) + (":" + Padded(neg, t / MINUTE % 60, 2)) + (":" + Padded(neg, t / SECOND % 60, 2))
      + ("." + Padded(neg, t % SECOND, 3))
  }

  function Format(t: int): string {
    var full := Full(t < 0, Abs(t));
    if "00:" <= full then full[3..] else full
  }

  /** Below a hundred hours the text with its hours is two digits, a colon, two digits, a colon, two
      digits, a point and three digits. */
  lemma FixedWidth(t: nat)
    requires t < 100 * HOUR
    ensures var f := Full(false, t);
      && |f| == 12 && f[2] == ':' && f[5] == ':' && f[8] == '.'
      && forall i :: 0 <= i < 12 && i != 2 && i != 5 && i != 8 ==> IsDigit(f[i])
  {
    FieldIs(t / HOUR, 2);
    FieldIs(t / MINUTE % 60, 2);
    FieldIs(t / SECOND % 60, 2);
    FieldIs(t % SECOND, 3);
  }

  /** A field that fits into its width fills it with digits. */
  lemma FieldIs(n: nat, width: nat)
    requires (width == 2 && n < 100) || (width == 3 && n < 1000)
    ensures var p := Padded(false, n, width); |p| == width && forall i :: 0 <= i < width ==> IsDigit(p[i])
  {
    DecimalIsShort(n);
    if n >= 10 { DecimalIsShort(n / 10); }
    if n >= 100 { DecimalIsShort(n / 100); }
    PaddedIs(false, n, width);
    var p, d := Padded(false, n, width), Decimal(n);
    forall i | 0 <= i < width
      ensures IsDigit(p[i])
    {
      if i >= |p| - |d| { assert p[i] == d[i - (|p| - |d|)]; }
    }
  }

  // ----- the parser -----

  function Value(c: char): nat
    requires IsDigit(c)
  {
    (c - '0') as nat
  }

  /** The numbers that the separators take apart; `acc` is the one being read, `neg` its sign. */
  function Numbers(s: string, neg: bool, acc: nat): seq<int> {
    if s == [] then [Signed(neg, acc)]
    else if IsDigit(s[0]) then Numbers(s[1..], neg, 10 * acc + Value(s[0]))
    else if s[0] == '-' then Numbers(s[1..], true, acc)
    else [Signed(neg, acc)] + Numbers(s[1..], false, 0)
  }

  function Parse(s: string): int {
    var n := Numbers(s, false, 0);
    if |n| == 4 then ((n[0] * 60 + n[1]) * 60 + n[2]) * 1000 + n[3]
    else if |n| == 3 then (n[0] * 60 + n[1]) * 1000 + n[2]
    else 0
  }

  predicate AllDigits(s: string) {
    forall i :: 0 <= i < |s| ==> IsDigit(s[i])
  }

  /** The number that digits make, read on from acc. */
  function ReadOn(s: string, acc: nat): nat
    requires AllDigits(s)
  {
    if s == [] then acc else ReadOn(s[1..], 10 * acc + Value(s[0]))
  }

  lemma {:induction false} ReadOnMore(s: string, c: char, acc: nat)
    requires AllDigits(s) && IsDigit(c)
    ensures ReadOn(s + [c], acc) == 10 * ReadOn(s, acc) + Value(c)
  {
    if s == [] {
      assert ReadOn([c], acc) == ReadOn([], 10 * acc + Value(c));
    } else {
      ReadOnMore(s[1..], c, 10 * acc + Value(s[0]));
      assert (s + [c])[1..] == s[1..] + [c];
    }
  }

  lemma {:induction false} DecimalReads(n: nat)
    ensures ReadOn(Decimal(n), 0) == n
  {
    if n < 10 {
      ReadOnMore("", Digit(n), 0);
    } else {
      DecimalReads(n / 10);
      ReadOnMore(Decimal(n / 10), Digit(n % 10), 0);
    }
  }

  lemma {:induction false} NumbersAfterZeros(k: nat, rest: string)
    ensures Numbers(Zeros(k) + rest, false, 0) == Numbers(rest, false, 0)
  {
    if k == 0 {
      assert Zeros(0) + rest == rest;
    } else {
      NumbersAfterZeros(k - 1, rest);
      assert (Zeros(k) + rest)[1..] == Zeros(k - 1) + rest;
    }
  }

  lemma {:induction false} NumbersAfterDigits(s: string, rest: string, neg: bool, acc: nat)
    requires AllDigits(s)
    ensures Numbers(s + rest, neg, acc) == Numbers(rest, neg, ReadOn(s, acc))
  {
    if s == [] {
      assert s + rest == rest;
    } else {
      NumbersAfterDigits(s[1..], rest, neg, 10 * acc + Value(s[0]));
      assert (s + rest)[1..] == s[1..] + rest;
    }
  }

  lemma NumbersAfterNumber(neg: bool, n: nat, rest: string)
    ensures Numbers(Number(neg, n) + rest, false, 0) == Numbers(rest, neg && n != 0, n)
  {
    var d := Decimal(n);
    DecimalReads(n);
    NumbersAfterDigits(d, rest, neg && n != 0, 0);
    if neg && n != 0 {
      assert (Number(neg, n) + rest)[1..] == d + rest;
    }
  }

  lemma NumbersAfterPadded(neg: bool, n: nat, width: nat, rest: string)
    ensures Numbers(Padded(neg, n, width) + rest, false, 0) == Numbers(rest, neg && n != 0, n)
  {
    var d := Number(neg, n);
    NumbersAfterNumber(neg, n, rest);
    if |d| < width {
      var zeros := Zeros(width - |d|);
      NumbersAfterZeros(width - |d|, d + rest);
      assert zeros + d + rest == zeros + (d + rest);
    }
  }

  /** A padded number in front of a separator is read as the next number. */
  lemma NumbersOf(neg: bool, n: nat, width: nat, sep: char, rest: string)
    requires !IsDigit(sep) && sep != '-'
    ensures Numbers(Padded(neg, n, width) + ([sep] + rest), false, 0) == [Signed(neg, n)] + Numbers(rest, false, 0)
    ensures Numbers(Padded(neg, n, width), false, 0) == [Signed(neg, n)]
  {
    var p := Padded(neg, n, width);
    NumbersAfterPadded(neg, n, width, [sep] + rest);
    NumbersAfterPadded(neg, n, width, "");
    assert p + "" == p && ([sep] + rest)[1..] == rest;
  }

  function Tail(neg: bool, t: nat): string {
    Padded(neg, t / MINUTE % 60, 2) + (":" + (Padded(neg, t / SECOND % 60, 2) + ("." + Padded(neg, t % SECOND, 3))))
  }

  lemma FullIs(neg: bool, t: nat)
    ensures Full(neg, t) == Padded(neg, t / HOUR, 2) + (":" + Tail(neg, t))
  {
    Joined(Padded(neg, t / HOUR, 2), ":", Padded(neg, t / MINUTE % 60, 2), ":", Padded(neg, t / SECOND % 60, 2),
           "." + Padded(neg, t % SECOND, 3));
  }

  lemma Joined(a: string, p: string, b: string, q: string, c: string, d: string)
    ensures a + (p + b) + (q + c) + d == a + (p + (b + (q + (c + d))))
  {
  }

  lemma TailNumbers(neg: bool, t: nat)
    ensures Numbers(Tail(neg, t), false, 0)
      == [Signed(neg, t / MINUTE % 60), Signed(neg, t / SECOND % 60), Signed(neg, t % SECOND)]
  {
    var last := Padded(neg, t % SECOND, 3);
    NumbersOf(neg, t / MINUTE % 60, 2, ':', Padded(neg, t / SECOND % 60, 2) + ("." + last));
    NumbersOf(neg, t / SECOND % 60, 2, '.', last);
    NumbersOf(neg, t % SECOND, 3, '.', "");
  }

  /** The division chain is a mixed-radix decomposition. */
  lemma MixedRadix(t: nat)
    ensures ((t / HOUR * 60 + t / MINUTE % 60) * 60 + t / SECOND % 60) * 1000 + t % SECOND == t
  {
    assert t / MINUTE == t / SECOND / 60 && t / HOUR == t / MINUTE / 60;
  }

  lemma {:induction false} DecimalHead(n: nat)
    ensures 0 < n ==> Decimal(n)[0] != '0'
  {
    if n < 10 {
    } else {
      DecimalHead(n / 10);
    }
  }

  /** Only no hours at all look like two zeros. */
  lemma HoursHead(neg: bool, n: nat)
    ensures var h := Padded(neg, n, 2);
      |h| >= 2 && (n == 0 ==> h == "00") && (n != 0 ==> h[0] != '0' || h[1] != '0')
  {
    DecimalHead(n);
    if n != 0 {
      if neg {
        assert Number(neg, n)[0] == '-' && Padded(neg, n, 2) == Number(neg, n);
      } else if n < 10 {
        assert Padded(neg, n, 2) == ['0', Digit(n)];
      } else {
        assert Padded(neg, n, 2) == Decimal(n);
      }
    }
  }

  /** The leading "00:" is there to be dropped exactly if there are no hours. */
  lemma DropsIffNoHours(neg: bool, t: nat)
    ensures "00:" <= Full(neg, t) <==> t / HOUR == 0
    ensures t / HOUR == 0 ==> Full(neg, t)[3..] == Tail(neg, t)
  {
    HoursHead(neg, t / HOUR);
    FullIs(neg, t);
    HeadOf(Padded(neg, t / HOUR, 2), Tail(neg, t));
  }

  lemma HeadOf(h: string, tail: string)
    requires |h| >= 2
    ensures "00:" <= h + (":" + tail) ==> h[0] == h[1] == '0'
    ensures h == "00" ==> "00:" <= h + (":" + tail) && (h + (":" + tail))[3..] == tail
  {
    var s := h + (":" + tail);
    assert s[0] == h[0] && s[1] == h[1];
    if h == "00" {
      assert s[..3] == "00:" && s[3..] == tail;
    }
  }

  /** The parser recovers every duration, negative ones too. */
  lemma ParseFormat(t: int)
    ensures Parse(Format(t)) == t
  {
    var neg, a := t < 0, Abs(t);
    DropsIffNoHours(neg, a);
    TailNumbers(neg, a);
    MixedRadix(a);
    if a / HOUR != 0 {
      FullIs(neg, a);
      NumbersOf(neg, a / HOUR, 2, ':', Tail(neg, a));
    }
  }

  /** Different durations look different. */
  lemma Injective(t: int, u: int)
    requires Format(t) == Format(u)
    ensures t == u
  {
    ParseFormat(t);
    ParseFormat(u);
  }

  // ----- the loop -----

  type Positive = n: nat | 0 < n witness 1

  datatype Field = Field(denominator: Positive, width: nat, separator: string)

  /** Division as C++ has it: rounding towards zero. */
  function Quotient(t: int, d: Positive): int { Signed(t < 0, Abs(t) / d) }

  function Remainder(t: int, d: Positive): int { Signed(t < 0, Abs(t) % d) }

  function Written(f: Field, time: int): string {
    var n := Quotient(time, f.denominator);
    f.separator + Padded(n < 0, Abs(n), f.width)
  }

  const FORMATS := [Field(HOUR, 2, ""), Field(MINUTE, 2, ":"), Field(SECOND, 2, ":"), Field(1, 3, ".")]

  /** What is left to divide before field k. */
  function Left(t: nat, k: nat): nat {
    if k == 0 then t else if k == 1 then t % HOUR else if k == 2 then t % MINUTE else if k == 3 then t % SECOND else 0
  }

  /** The first k fields. */
  function Fields(neg: bool, t: nat, k: nat): string {
    if k == 0 then ""
    else if k == 1 then Padded(neg, t / HOUR, 2)
    else if k == 2 then Fields(neg, t, 1) + (":" + Padded(neg, t / MINUTE % 60, 2))
    else if k == 3 then Fields(neg, t, 2) + (":" + Padded(neg, t / SECOND % 60, 2))
    else Fields(neg, t, 3) + ("." + Padded(neg, t % SECOND, 3))
  }

  /** Dividing what is left gives the next field and what is left then. */
  lemma Division(t: nat, k: nat)
    requires k < 4
    ensures Left(t, k) % FORMATS[k].denominator == Left(t, k + 1)
    ensures Left(t, k) / FORMATS[k].denominator ==
      if k == 0 then t / HOUR else if k == 1 then t / MINUTE % 60 else if k == 2 then t / SECOND % 60 else t % SECOND
  {
    if k == 1 {
      assert t / MINUTE / 60 == t / HOUR && t % HOUR / MINUTE == t / MINUTE % 60;
    } else if k == 2 {
      assert t / SECOND / 60 == t / MINUTE && t % MINUTE / SECOND == t / SECOND % 60;
    }
  }

  /** The sign stays with the quotient and with what is left; a field that is zero has none. */
  lemma SignedDivision(neg: bool, left: nat, f: Field)
    ensures Remainder(Signed(neg, left), f.denominator) == Signed(neg, left % f.denominator)
    ensures Written(f, Signed(neg, left)) == f.separator + Padded(neg, left / f.denominator, f.width)
  {
    var d, t := f.denominator, Signed(neg, left);
    var q := left / d;
    assert Abs(t) == left;
    if t < 0 {
      assert Quotient(t, d) == Signed(true, q);
    } else {
      assert Quotient(t, d) == q;
    }
    assert Padded(neg && q != 0, q, f.width) == Padded(neg, q, f.width);
  }

  lemma NextField(neg: bool, t: nat, k: nat)
    requires k < 4
    ensures Remainder(Signed(neg, Left(t, k)), FORMATS[k].denominator) == Signed(neg, Left(t, k + 1))
    ensures Fields(neg, t, k + 1) == Fields(neg, t, k) + Written(FORMATS[k], Signed(neg, Left(t, k)))
  {
    Division(t, k);
    SignedDivision(neg, Left(t, k), FORMATS[k]);
    if k == 0 {
      assert "" + ("" + Padded(neg, t / HOUR, 2)) == Padded(neg, t / HOUR, 2);
    }
  }

  /** The loop over the formats. */
  method WriteFields(t: int) returns (o: string)
    ensures o == Fields(t < 0, Abs(t), 4)
  {
    var time := t;
    o := "";
    var k := 0;
    while k < 4
      invariant k <= 4 && time == Signed(t < 0, Left(Abs(t), k)) && o == Fields(t < 0, Abs(t), k)
    {
      NextField(t < 0, Abs(t), k);
      var f := FORMATS[k];
      o := o + Written(f, time);
      time := Remainder(time, f.denominator);
      k := k + 1;
    }
  }

  lemma FieldsAreFull(neg: bool, t: nat)
    ensures Fields(neg, t, 4) == Full(neg, t)
  {
    assert Fields(neg, t, 2) == Padded(neg, t / HOUR, 2) + (":" + Padded(neg, t / MINUTE % 60, 2));
    assert Fields(neg, t, 3) == Fields(neg, t, 2) + (":" + Padded(neg, t / SECOND % 60, 2));
  }

  method CreateTimeFormatString(t: int) returns (res: string)
    ensures res == Format(t)
  {
    res := WriteFields(t);
    FieldsAreFull(t < 0, Abs(t));
    if |res| >= 3 && res[..3] == "00:" {
      res := res[3..];
    }
  }
}
