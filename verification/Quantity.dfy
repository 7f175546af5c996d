/**
  Resource quantities rendered by value (internal/attest/normalize.go): the exact decimal is stripped
  of trailing fractional zeros and printed as `inf.Dec.String` prints it.
 */
module Quantity {
  /** An exact decimal: `unscaled` times ten to the minus `scale`. */
  datatype Dec = Dec(unscaled: int, scale: int)

  function Pow10(n: nat): (p: nat)
    ensures p > 0
  {
    if n == 0 then 1 else 10 * Pow10(n - 1)
  }

  /** The decimal as a fraction. */
  function Num(d: Dec): int {
    if d.scale < 0 then d.unscaled * Pow10(-d.scale) else d.unscaled
  }

  function Den(d: Dec): nat {
    if d.scale > 0 then Pow10(d.scale) else 1
  }

  /** The two decimals are the same number. */
  predicate SameValue(a: Dec, b: Dec) {
    Num(a) * Den(b) == Num(b) * Den(a)
  }

  // ---------- the code ----------

  /** `big.Int.QuoRem` truncates toward zero. */
  function Quo(a: int, b: int): int
    requires b > 0
  {
    if a >= 0 then a / b else -(-a / b)
  }

  function Rem(a: int, b: int): int
    requires b > 0
  {
    a - b * Quo(a, b)
  }

  function Digit(n: nat): char
    requires n < 10
  {
    '0' + n as char
  }

  function Digits(n: nat): (s: string)
    ensures s != ""
  {
    if n < 10 then [Digit(n)] else Digits(n / 10) + [Digit(n % 10)]
  }

  /** `big.Int.String`. */
  function IntString(n: int): string {
    if n < 0 then "-" + Digits(-n) else Digits(n)
  }

  function Zeros(n: nat): (s: string)
    ensures |s| == n
  {
    if n == 0 then "" else Zeros(n - 1) + "0"
  }

  /** Where `inf.Dec.String` puts the point: `s` is the integer's string, `neg` the length of its sign. */
  function Place(s: string, neg: nat, scale: nat): string
    requires neg <= 1 && neg <= |s|
  {
    if |s| - neg <= scale then
      (if neg == 1 then "-" else "") + "0." + Zeros(scale - |s| + neg) + s[neg..]
    else
      s[..|s| - scale] + "." + s[|s| - scale..]
  }

  /** `inf.Dec.String`. */
  function Render(d: Dec): string {
    var s := IntString(d.unscaled);
    if d.scale > 0 then Place(s, if d.unscaled < 0 then 1 else 0, d.scale)
    else if d.scale != 0 && d.unscaled != 0 then s + Zeros(-d.scale)
    else s
  }

  function Strip(d: Dec): Dec
    decreases d.scale
  {
    if d.scale > 0 && d.unscaled != 0 && Rem(d.unscaled, 10) == 0 then
      Strip(Dec(Quo(d.unscaled, 10), d.scale - 1))
    else
      d
  }

  function Canonical(d: Dec): string {
    if d.unscaled == 0 then "0" else Render(Strip(d))
  }

  /** `canonicalQuantity`, from `AsDec` on. */
  method CanonicalQuantity(dec: Dec) returns (s: string)
    ensures s == Canonical(dec)
  {
    var unscaled, scale := dec.unscaled, dec.scale;
    while scale > 0 && unscaled != 0
      invariant Strip(Dec(unscaled, scale)) == Strip(dec)
      invariant unscaled == 0 <==> dec.unscaled == 0
      decreases scale
    {
      var quo, rem := Quo(unscaled, 10), Rem(unscaled, 10);
      if rem != 0 {
        break;
      }
      unscaled := quo;
      scale := scale - 1;
    }
    if unscaled == 0 {
      return "0";
    }
    return Render(Dec(unscaled, scale));
  }

  // ---------- powers of ten ----------

  lemma {:induction false} Pow10Sum(m: nat, n: nat)
    ensures Pow10(m + n) == Pow10(m) * Pow10(n)
  {
    if m != 0 {
      Pow10Sum(m - 1, n);
    }
  }

  lemma Cancel(a: int, b: int, p: int)
    requires p > 0 && a * p == b * p
    ensures a == b
  {
  }

  lemma Swap(a: int, b: int, c: int)
    ensures a * b * c == a * c * b
  {
    assert a * b * c == a * (b * c) == a * (c * b) == a * c * b;
  }

  lemma FractionsTransitive(a: int, x: int, b: int, y: int, c: int, z: int)
    requires y > 0 && a * y == b * x && b * z == c * y
    ensures a * z == c * x
  {
    Swap(a, z, y);
    Swap(b, x, z);
    Swap(c, y, x);
    Cancel(a * z, c * x, y);
  }

  lemma SameValueTransitive(a: Dec, b: Dec, c: Dec)
    requires SameValue(a, b) && SameValue(b, c)
    ensures SameValue(a, c)
  {
    FractionsTransitive(Num(a), Den(a), Num(b), Den(b), Num(c), Den(c));
  }

  // ---------- the loop keeps the value and ends in the stripped form ----------

  predicate Stripped(d: Dec) {
    d.scale <= 0 || d.unscaled % 10 != 0
  }

  /** One turn of the loop keeps the value. */
  lemma StripOnce(d: Dec, next: Dec)
    requires d.scale > 0 && d.unscaled == 10 * next.unscaled && next.scale == d.scale - 1
    ensures SameValue(d, next)
  {
    TimesTen(next.unscaled, d.scale);
  }

  lemma {:induction false} StripKeepsValue(d: Dec)
    ensures SameValue(d, Strip(d))
    ensures d.unscaled != 0 ==> Strip(d).unscaled != 0 && Stripped(Strip(d))
    decreases d.scale
  {
    if d.scale > 0 && d.unscaled != 0 && Rem(d.unscaled, 10) == 0 {
      var next := Dec(Quo(d.unscaled, 10), d.scale - 1);
      assert d.unscaled == 10 * next.unscaled;
      StripOnce(d, next);
      StripKeepsValue(next);
      SameValueTransitive(d, next, Strip(d));
    }
  }

  lemma ZeroValue(a: Dec, b: Dec)
    requires SameValue(a, b)
    ensures a.unscaled == 0 <==> b.unscaled == 0
  {
    NumZero(a);
    NumZero(b);
    if Num(a) == 0 && Num(b) != 0 {
      Cancel(Num(b), 0, Den(a));
    }
    if Num(b) == 0 && Num(a) != 0 {
      Cancel(Num(a), 0, Den(b));
    }
  }

  lemma NumZero(a: Dec)
    ensures Num(a) == 0 <==> a.unscaled == 0
  {
    if a.scale < 0 && a.unscaled * Pow10(-a.scale) == 0 {
      Cancel(a.unscaled, 0, Pow10(-a.scale));
    }
  }

  // ---------- what a rendered string says ----------

  predicate AllDigits(s: string) {
    forall i :: 0 <= i < |s| ==> '0' <= s[i] <= '9'
  }

  /** The digits of a string, read as one number; a point is skipped. */
  function Number(s: string): int
  {
    if s == "" then 0
    else if s[|s| - 1] == '.' then Number(s[..|s| - 1])
    else 10 * Number(s[..|s| - 1]) + (s[|s| - 1] as int - '0' as int)
  }

  /** How many characters follow the point. */
  function Fraction(s: string): nat {
    if s == "" then 0 else if s[0] == '.' then |s| - 1 else Fraction(s[1..])
  }

  lemma NumberSnoc(s: string, c: char)
    ensures Number(s + [c]) == if c == '.' then Number(s) else 10 * Number(s) + (c as int - '0' as int)
  {
    assert (s + [c])[..|s|] == s;
  }

  lemma {:induction false} DigitsRead(n: nat)
    ensures AllDigits(Digits(n)) && Number(Digits(n)) == n
    ensures Digits(n)[0] == '0' ==> n == 0
  {
    if n >= 10 {
      DigitsRead(n / 10);
      NumberSnoc(Digits(n / 10), Digit(n % 10));
    }
  }

  lemma TimesTen(n: int, k: nat)
    requires k > 0
    ensures n * Pow10(k) == 10 * (n * Pow10(k - 1))
  {
    Swap(n, Pow10(k - 1), 10);
  }

  lemma {:induction false} ZerosAreDigits(k: nat)
    ensures AllDigits(Zeros(k))
  {
    if k != 0 {
      ZerosAreDigits(k - 1);
    }
  }

  lemma ZerosSnoc(s: string, k: nat)
    requires k > 0
    ensures s + Zeros(k) == (s + Zeros(k - 1)) + ['0']
  {
  }

  lemma {:induction false} NumberZeros(s: string, k: nat)
    ensures Number(s + Zeros(k)) == Number(s) * Pow10(k)
  {
    if k == 0 {
      assert s + Zeros(0) == s;
    } else {
      NumberZeros(s, k - 1);
      ZerosSnoc(s, k);
      NumberSnoc(s + Zeros(k - 1), '0');
      TimesTen(Number(s), k);
    }
  }

  lemma {:induction false} NumberZerosFirst(s: string, k: nat)
    ensures Number(Zeros(k) + s) == Number(s)
    decreases |s|
  {
    if s == "" {
      NumberZeros("", k);
      assert Zeros(k) + s == "" + Zeros(k);
    } else {
      var init, c := s[..|s| - 1], s[|s| - 1];
      NumberZerosFirst(init, k);
      assert Zeros(k) + s == (Zeros(k) + init) + [c] && s == init + [c];
      NumberSnoc(Zeros(k) + init, c);
    }
  }

  /** A point anywhere does not change the digits read. */
  lemma {:induction false} NumberPoint(a: string, b: string)
    ensures Number(a + "." + b) == Number(a + b)
    decreases |b|
  {
    if b == "" {
      assert a + "." + b == a + ['.'] && a + b == a;
      NumberSnoc(a, '.');
    } else {
      var init, c := b[..|b| - 1], b[|b| - 1];
      NumberPoint(a, init);
      assert a + "." + b == (a + "." + init) + [c] && a + b == (a + init) + [c];
      NumberSnoc(a + "." + init, c);
      NumberSnoc(a + init, c);
    }
  }

  lemma {:induction false} FractionPoint(a: string, b: string)
    requires AllDigits(a)
    ensures Fraction(a + "." + b) == |b|
  {
    if a == "" {
      assert a + "." + b == "." + b;
    } else {
      assert (a + "." + b)[1..] == a[1..] + "." + b;
      FractionPoint(a[1..], b);
    }
  }

  lemma {:induction false} FractionNone(a: string)
    requires AllDigits(a)
    ensures Fraction(a) == 0
  {
    if a != "" {
      FractionNone(a[1..]);
    }
  }

  /** An unsigned digit string with the point `scale` places from its end, or zeros after it. */
  function Plain(s: string, scale: int): string {
    if scale > 0 then Place(s, 0, scale) else s + Zeros(-scale)
  }

  lemma PlaceSigned(t: string, scale: nat)
    ensures Place("-" + t, 1, scale) == "-" + Place(t, 0, scale)
  {
    var s := "-" + t;
    assert s[1..] == t;
    if |t| > scale {
      assert s[..|s| - scale] == "-" + t[..|t| - scale];
      assert s[|s| - scale..] == t[|t| - scale..];
    }
  }

  function Signed(negative: bool, s: string): string {
    if negative then "-" + s else s
  }

  lemma RenderSigned(d: Dec)
    requires d.unscaled != 0
    ensures Render(d) == Signed(d.unscaled < 0, Plain(Digits(Abs(d.unscaled)), d.scale))
  {
    var t := Digits(Abs(d.unscaled));
    assert t + Zeros(0) == t;
    if d.unscaled < 0 {
      PlaceSigned(t, if d.scale > 0 then d.scale else 0);
      assert d.scale <= 0 ==> ("-" + t) + Zeros(-d.scale) == "-" + (t + Zeros(-d.scale));
    }
  }

  lemma PlaceShort(s: string, scale: nat)
    requires |s| <= scale
    ensures Place(s, 0, scale) == "0" + "." + (Zeros(scale - |s|) + s)
  {
  }

  /** A point among digits is skipped by `Number` and found by `Fraction`. */
  lemma ReadPoint(a: string, b: string)
    requires AllDigits(a)
    ensures Number(a + "." + b) == Number(a + b) && Fraction(a + "." + b) == |b|
  {
    NumberPoint(a, b);
    FractionPoint(a, b);
  }

  lemma NumberZeroFirst(s: string)
    ensures Number("0" + s) == Number(s)
  {
    assert Zeros(1) == Zeros(0) + "0" == "0";
    NumberZerosFirst(s, 1);
  }

  lemma ReadPlacedShort(s: string, scale: nat)
    requires |s| <= scale
    ensures Number(Place(s, 0, scale)) == Number(s) && Fraction(Place(s, 0, scale)) == scale
    ensures Place(s, 0, scale)[0] != '-'
  {
    var t := Zeros(scale - |s|) + s;
    PlaceShort(s, scale);
    ReadPoint("0", t);
    NumberZeroFirst(t);
    NumberZerosFirst(s, scale - |s|);
  }

  lemma ReadPlacedLong(s: string, scale: nat)
    requires AllDigits(s) && 0 < scale < |s|
    ensures Number(Place(s, 0, scale)) == Number(s) && Fraction(Place(s, 0, scale)) == scale
    ensures Place(s, 0, scale)[0] != '-'
  {
    var a, b := s[..|s| - scale], s[|s| - scale..];
    assert a + b == s;
    ReadPoint(a, b);
  }

  lemma ReadPlaced(s: string, scale: nat)
    requires AllDigits(s) && scale > 0
    ensures Number(Place(s, 0, scale)) == Number(s) && Fraction(Place(s, 0, scale)) == scale
    ensures Place(s, 0, scale)[0] != '-'
  {
    if |s| <= scale {
      ReadPlacedShort(s, scale);
    } else {
      ReadPlacedLong(s, scale);
    }
  }

  /** A plain string reads back as the fraction it was made from. */
  lemma ReadPlain(s: string, scale: int)
    requires AllDigits(s) && s != ""
    ensures Number(Plain(s, scale)) == Number(s) * (if scale < 0 then Pow10(-scale) else 1)
    ensures Fraction(Plain(s, scale)) == (if scale > 0 then scale else 0)
    ensures Plain(s, scale)[0] != '-'
  {
    if scale > 0 {
      ReadPlaced(s, scale);
    } else {
      NumberZeros(s, -scale);
      ZerosAreDigits(-scale);
      FractionNone(s + Zeros(-scale));
    }
  }

  function Abs(n: int): nat {
    if n < 0 then -n else n
  }

  lemma AbsNum(d: Dec)
    ensures Abs(Num(d)) == Abs(d.unscaled) * (if d.scale < 0 then Pow10(-d.scale) else 1)
    ensures d.unscaled != 0 ==> (Num(d) < 0 <==> d.unscaled < 0)
  {
    if d.scale < 0 {
      var p := Pow10(-d.scale);
      assert (-d.unscaled) * p == -(d.unscaled * p);
      assert d.unscaled > 0 ==> d.unscaled * p > 0;
      assert d.unscaled < 0 ==> (-d.unscaled) * p > 0;
    }
  }

  /** What the sign, the digits and the point of a rendered string say. */
  lemma ReadRendered(d: Dec)
    requires d.unscaled != 0
    ensures Render(d) != "" && (Render(d)[0] == '-' <==> Num(d) < 0)
    ensures
      var body := if Num(d) < 0 then Render(d)[1..] else Render(d);
      Number(body) == Abs(Num(d)) && Fraction(body) == (if d.scale > 0 then d.scale else 0)
  {
    var s := Digits(Abs(d.unscaled));
    AbsNum(d);
    RenderSigned(d);
    DigitsRead(Abs(d.unscaled));
    ReadPlain(s, d.scale);
    ReadSigned(Num(d) < 0, Plain(s, d.scale));
  }

  lemma ReadSigned(negative: bool, s: string)
    requires s != "" && s[0] != '-'
    ensures Signed(negative, s) != "" && (Signed(negative, s)[0] == '-' <==> negative)
    ensures s == if negative then Signed(negative, s)[1..] else Signed(negative, s)
  {
  }

  /** The fraction can be read off the rendered string. */
  lemma RenderDetermines(a: Dec, b: Dec)
    requires a.unscaled != 0 && b.unscaled != 0 && Render(a) == Render(b)
    ensures Num(a) == Num(b) && Den(a) == Den(b)
  {
    ReadRendered(a);
    ReadRendered(b);
  }

  // ---------- one string per value ----------

  lemma DigitsTen(m: nat)
    requires m > 0
    ensures Digits(10 * m) == Digits(m) + "0"
  {
    assert 10 * m / 10 == m && 10 * m % 10 == 0;
  }

  lemma {:induction false} DigitsTimes(n: nat, k: nat)
    requires n > 0
    ensures n * Pow10(k) > 0 && Digits(n * Pow10(k)) == Digits(n) + Zeros(k)
  {
    if k == 0 {
      assert Digits(n) + Zeros(0) == Digits(n);
    } else {
      DigitsTimes(n, k - 1);
      var m := n * Pow10(k - 1);
      TimesTen(n, k);
      DigitsTen(m);
      assert Digits(n) + Zeros(k) == (Digits(n) + Zeros(k - 1)) + "0";
    }
  }

  lemma PlainInteger(n: nat, m: nat, scale: int)
    requires n > 0 && scale <= 0 && m == n * (if scale < 0 then Pow10(-scale) else 1)
    ensures m > 0 && Plain(Digits(n), scale) == Digits(m)
  {
    DigitsTimes(n, -scale);
  }

  /** With no fractional digits, the string is that of the integer value. */
  lemma RenderInteger(d: Dec)
    requires d.unscaled != 0 && d.scale <= 0
    ensures Render(d) == IntString(Num(d))
  {
    AbsNum(d);
    RenderSigned(d);
    PlainInteger(Abs(d.unscaled), Abs(Num(d)), d.scale);
  }

  lemma MultipleOfTen(a: int, b: int, k: nat)
    requires k > 0 && a == b * Pow10(k)
    ensures a % 10 == 0
  {
    assert a == 10 * (b * Pow10(k - 1)) by {
      Swap(b, Pow10(k - 1), 10);
    }
  }

  /** Two stripped forms of one value with fractional digits are the same form. */
  lemma StrippedUnique(a: Dec, b: Dec)
    requires Stripped(a) && Stripped(b) && SameValue(a, b) && a.scale > 0
    ensures 0 < b.scale <= a.scale
  {
    if b.scale <= 0 {
      MultipleOfTen(a.unscaled, Num(b), a.scale);
    } else if a.scale < b.scale {
      Pow10Sum(b.scale - a.scale, a.scale);
      var p := Pow10(b.scale - a.scale);
      assert a.unscaled * (p * Pow10(a.scale)) == (a.unscaled * p) * Pow10(a.scale);
      Cancel(a.unscaled * p, b.unscaled, Pow10(a.scale));
      MultipleOfTen(b.unscaled, a.unscaled, b.scale - a.scale);
    }
  }

  /** Of two stripped forms of one value, if either has fractional digits they are the same form. */
  lemma StrippedSame(a: Dec, b: Dec)
    requires Stripped(a) && Stripped(b) && SameValue(a, b) && a.scale > 0
    ensures a == b
  {
    StrippedUnique(a, b);
    StrippedUnique(b, a);
    Cancel(a.unscaled, b.unscaled, Pow10(a.scale));
  }

  lemma IntegersSame(a: Dec, b: Dec)
    requires SameValue(a, b) && a.scale <= 0 && b.scale <= 0
    ensures Num(a) == Num(b)
  {
  }

  lemma StrippedRender(a: Dec, b: Dec)
    requires a.unscaled != 0 && b.unscaled != 0 && Stripped(a) && Stripped(b) && SameValue(a, b)
    ensures Render(a) == Render(b)
  {
    if a.scale > 0 {
      StrippedSame(a, b);
    } else if b.scale > 0 {
      StrippedSame(b, a);
    } else {
      IntegersSame(a, b);
      RenderInteger(a);
      RenderInteger(b);
    }
  }

  /** Two quantities render to the same string exactly when they are the same number. */
  lemma CanonicalIffSameValue(a: Dec, b: Dec)
    ensures Canonical(a) == Canonical(b) <==> SameValue(a, b)
  {
    StripKeepsValue(a);
    StripKeepsValue(b);
    if a.unscaled == 0 || b.unscaled == 0 {
      CanonicalZero(a);
      CanonicalZero(b);
      if SameValue(a, b) {
        ZeroValue(a, b);
      }
    } else {
      var x, y := Strip(a), Strip(b);
      if SameValue(a, b) {
        SameValueTransitive(x, a, b);
        SameValueTransitive(x, b, y);
        StrippedRender(x, y);
      }
      if Render(x) == Render(y) {
        RenderDetermines(x, y);
        SameValueTransitive(a, x, y);
        SameValueTransitive(a, y, b);
      }
    }
  }

  lemma CanonicalZero(a: Dec)
    ensures Canonical(a) == "0" <==> a.unscaled == 0
  {
    if a.unscaled != 0 {
      StripKeepsValue(a);
      var x := Strip(a);
      NumZero(x);
      ReadRendered(x);
      assert Number("0") == 10 * Number("") == 0;
    }
  }

  // ---------- which string it is ----------

  /** `t` is a plain numeral: a sign or none, digits without a superfluous leading zero, and a fraction or none. */
  predicate Numeral(t: string, negative: bool, a: string, b: string) {
    t == (if negative then "-" else "") + a + (if b == "" then "" else "." + b) && Whole(a) && AllDigits(b)
  }

  lemma Pow10Grows(m: nat, n: nat)
    requires m <= n
    ensures Pow10(m) <= Pow10(n)
  {
    if m < n {
      Pow10Grows(m, n - 1);
    }
  }

  lemma NumberLast(s: string)
    requires s != "" && AllDigits(s)
    ensures AllDigits(s[..|s| - 1])
    ensures
      var digit := s[|s| - 1] as int - '0' as int;
      0 <= digit < 10 && Number(s) == 10 * Number(s[..|s| - 1]) + digit
  {
  }

  lemma {:induction false} NumberBounds(s: string)
    requires AllDigits(s)
    ensures 0 <= Number(s) < Pow10(|s|)
    ensures s != "" && s[0] != '0' ==> Number(s) >= Pow10(|s| - 1)
    decreases |s|
  {
    if s != "" {
      NumberLast(s);
      NumberBounds(s[..|s| - 1]);
    }
  }

  /** Digit strings of one length are told apart by their number. */
  lemma {:induction false} SameLengthSameNumber(s: string, t: string)
    requires AllDigits(s) && AllDigits(t) && |s| == |t| && Number(s) == Number(t)
    ensures s == t
    decreases |s|
  {
    if s != "" {
      var n := |s| - 1;
      NumberLast(s);
      NumberLast(t);
      assert Number(s[..n]) == Number(t[..n]);
      SameLengthSameNumber(s[..n], t[..n]);
      assert s == s[..n] + [s[n]] && t == t[..n] + [t[n]];
    }
  }

  lemma LongerIsGreater(s: string, t: string)
    requires AllDigits(s) && AllDigits(t) && |t| < |s| && s[0] != '0'
    ensures Number(t) < Number(s)
  {
    NumberBounds(s);
    NumberBounds(t);
    Pow10Grows(|t|, |s| - 1);
  }

  lemma NotLonger(s: string, t: string)
    requires AllDigits(s) && AllDigits(t) && s != "" && s[0] != '0' && Number(s) == Number(t)
    ensures |s| <= |t|
  {
    if |t| < |s| {
      LongerIsGreater(s, t);
    }
  }

  lemma DigitsJoin(a: string, b: string)
    requires AllDigits(a) && AllDigits(b)
    ensures AllDigits(a + b) && (a != "" ==> (a + b)[0] == a[0])
  {
  }

  /** Digits in front of a point, without a superfluous zero. */
  predicate Whole(a: string) {
    a != "" && AllDigits(a) && (a[0] == '0' ==> a == "0")
  }

  /** With as many digits after the point, the same number is not written longer. */
  lemma NoLongerFront(s: string, a: string, b: string, t: string, a': string, b': string)
    requires s == a + b && t == a' + b' && Whole(a) && Whole(a') && AllDigits(b) && AllDigits(b')
    requires |b| == |b'| && Number(s) == Number(t)
    ensures |a| <= |a'|
  {
    DigitsJoin(a, b);
    DigitsJoin(a', b');
    if a[0] != '0' {
      NotLonger(s, t);
    }
  }

  lemma SplitSame(a: string, b: string, a': string, b': string)
    requires a + b == a' + b' && |a| == |a'|
    ensures a == a' && b == b'
  {
    assert (a + b)[..|a|] == a && (a' + b')[..|a|] == a' && (a + b)[|a|..] == b && (a' + b')[|a|..] == b';
  }

  /** A number has one way of being written with a given number of digits after the point. */
  lemma OneNumeral(s: string, a: string, b: string, t: string, a': string, b': string)
    requires s == a + b && t == a' + b' && Whole(a) && Whole(a') && AllDigits(b) && AllDigits(b')
    requires |b| == |b'| && Number(s) == Number(t)
    ensures a == a' && b == b'
  {
    NoLongerFront(s, a, b, t, a', b');
    NoLongerFront(t, a', b', s, a, b);
    DigitsJoin(a, b);
    DigitsJoin(a', b');
    SameLengthSameNumber(s, t);
    SplitSame(a, b, a', b');
  }

  lemma SignedJoin(negative: bool, a: string, x: string)
    ensures Signed(negative, a + x) == (if negative then "-" else "") + a + x
  {
  }

  lemma PlainShape(s: string, scale: int) returns (a: string, b: string)
    requires s != "" && AllDigits(s) && s[0] != '0'
    ensures Plain(s, scale) == a + (if b == "" then "" else "." + b) && Whole(a) && AllDigits(b)
    ensures |b| == (if scale > 0 then scale else 0)
    ensures Number(a + b) == Number(s) * (if scale < 0 then Pow10(-scale) else 1)
  {
    if scale <= 0 {
      a, b := s + Zeros(-scale), "";
      WholeShape(s, -scale);
      assert a + b == a;
    } else {
      a, b := PlaceShape(s, scale);
      assert a + "." + b == a + ("." + b);
    }
  }

  /** What is printed is such a numeral, with as many fractional digits as the scale says. */
  lemma RenderShape(d: Dec) returns (a: string, b: string)
    requires d.unscaled != 0
    ensures Numeral(Render(d), d.unscaled < 0, a, b) && |b| == (if d.scale > 0 then d.scale else 0)
    ensures Number(a + b) == Abs(Num(d))
  {
    var n := Abs(d.unscaled);
    RenderSigned(d);
    AbsNum(d);
    DigitsRead(n);
    a, b := PlainShape(Digits(n), d.scale);
    SignedJoin(d.unscaled < 0, a, if b == "" then "" else "." + b);
  }

  lemma WholeShape(s: string, k: nat)
    requires s != "" && AllDigits(s) && s[0] != '0'
    ensures
      var a := s + Zeros(k);
      AllDigits(a) && a[0] != '0' && Number(a) == Number(s) * Pow10(k) && (k == 0 ==> a == s)
  {
    ZerosAreDigits(k);
    NumberZeros(s, k);
  }

  lemma PlaceShape(s: string, scale: nat) returns (a: string, b: string)
    requires s != "" && AllDigits(s) && s[0] != '0' && scale > 0
    ensures Place(s, 0, scale) == a + "." + b && |b| == scale && Number(a + b) == Number(s)
    ensures Whole(a) && AllDigits(b)
  {
    if |s| <= scale {
      var k := scale - |s|;
      PlaceShort(s, scale);
      ZerosAreDigits(k);
      a, b := "0", Zeros(k) + s;
      NumberZeroFirst(b);
      NumberZerosFirst(s, k);
    } else {
      a, b := s[..|s| - scale], s[|s| - scale..];
      assert a + b == s;
    }
  }

  /** The value a numeral stands for. */
  function ValueOf(negative: bool, a: string, b: string): Dec {
    Dec(if negative then -Number(a + b) else Number(a + b), |b|)
  }

  /** A printed decimal is the only numeral of its value with that many fractional digits. */
  lemma RenderIsTheNumeral(t: string, negative: bool, a: string, b: string)
    requires Numeral(t, negative, a, b) && Number(a + b) != 0
    ensures t == Render(ValueOf(negative, a, b))
  {
    NumberBounds(a + b);
    var d := ValueOf(negative, a, b);
    var a', b' := RenderShape(d);
    OneNumeral(a + b, a, b, a' + b', a', b');
  }

  lemma Mod10(x: int, digit: int)
    requires 0 <= digit < 10
    ensures (10 * x + digit) % 10 == digit
  {
  }

  /** A number ends in zero exactly when its last digit is one. */
  lemma EndsInZero(s: string)
    requires AllDigits(s) && s != ""
    ensures Number(s) % 10 == 0 <==> s[|s| - 1] == '0'
  {
    NumberLast(s);
    Mod10(Number(s[..|s| - 1]), s[|s| - 1] as int - '0' as int);
  }

  lemma LastDigit(a: string, b: string)
    requires AllDigits(a) && AllDigits(b) && b != ""
    ensures Number(a + b) % 10 == 0 <==> b[|b| - 1] == '0'
  {
    DigitsJoin(a, b);
    EndsInZero(a + b);
  }

  lemma ZeroNumeral(a: string)
    requires Whole(a) && Number(a) == 0
    ensures a == "0"
  {
    NumberBounds(a);
  }

  lemma StrippedStays(x: Dec)
    requires Stripped(x)
    ensures Strip(x) == x
  {
  }

  lemma NonzeroNumeral(d: Dec, t: string, negative: bool, a: string, b: string)
    requires Numeral(t, negative, a, b) && Number(a + b) != 0
    requires Stripped(ValueOf(negative, a, b)) && SameValue(d, ValueOf(negative, a, b))
    ensures t == Canonical(d)
  {
    var x := ValueOf(negative, a, b);
    CanonicalIffSameValue(d, x);
    StrippedStays(x);
    RenderIsTheNumeral(t, negative, a, b);
  }

  lemma NumeralStripped(negative: bool, a: string, b: string)
    requires AllDigits(a) && AllDigits(b) && (b != "" ==> b[|b| - 1] != '0')
    ensures Stripped(ValueOf(negative, a, b))
  {
    if b != "" {
      LastDigit(a, b);
    }
  }

  lemma NumeralOfZero(t: string, a: string, b: string)
    requires Numeral(t, false, a, b) && (b != "" ==> b[|b| - 1] != '0') && Number(a + b) == 0
    ensures t == "0"
  {
    if b != "" {
      LastDigit(a, b);
    } else {
      assert a + b == a;
      ZeroNumeral(a);
    }
  }

  /**
    The canonical string of a quantity is the one plain numeral of its value that has no superfluous zero at
    either end and no sign on zero: every such numeral is that string.
   */
  lemma CanonicalIsTheNumeral(d: Dec, t: string, negative: bool, a: string, b: string)
    requires Numeral(t, negative, a, b) && (b != "" ==> b[|b| - 1] != '0')
    requires negative ==> Number(a + b) != 0
    requires SameValue(d, ValueOf(negative, a, b))
    ensures t == Canonical(d)
  {
    if Number(a + b) == 0 {
      NumeralOfZero(t, a, b);
      ZeroValue(d, ValueOf(negative, a, b));
    } else {
      NumeralStripped(negative, a, b);
      NonzeroNumeral(d, t, negative, a, b);
    }
  }

  lemma SameFraction(x: Dec, y: Dec)
    requires Num(x) == Num(y) && Den(x) == Den(y)
    ensures SameValue(x, y)
  {
  }

  /** The digits read as the numerator's magnitude; with the sign they stand for the decimal. */
  lemma ShapeValue(x: Dec, a: string, b: string)
    requires x.unscaled != 0 && Number(a + b) == Abs(Num(x)) && |b| == (if x.scale > 0 then x.scale else 0)
    ensures Number(a + b) != 0 && SameValue(x, ValueOf(x.unscaled < 0, a, b))
  {
    AbsNum(x);
    NumZero(x);
    SameFraction(x, ValueOf(x.unscaled < 0, a, b));
  }

  lemma NoZeroEnd(x: Dec, a: string, b: string)
    requires Stripped(x) && x.scale > 0 && AllDigits(a) && AllDigits(b) && b != "" && Number(a + b) == Abs(x.unscaled)
    ensures b[|b| - 1] != '0'
  {
    LastDigit(a, b);
    AbsMod(x.unscaled);
  }

  lemma AbsMod(n: int)
    ensures Abs(n) % 10 == 0 <==> n % 10 == 0
  {
  }

  /** A printed stripped form is a numeral of its value that does not end in a fractional zero. */
  lemma StrippedNumeral(x: Dec) returns (a: string, b: string)
    requires x.unscaled != 0 && Stripped(x)
    ensures Numeral(Render(x), x.unscaled < 0, a, b) && (b != "" ==> b[|b| - 1] != '0')
    ensures Number(a + b) != 0 && SameValue(x, ValueOf(x.unscaled < 0, a, b))
  {
    a, b := RenderShape(x);
    ShapeValue(x, a, b);
    if b != "" {
      NoZeroEnd(x, a, b);
    }
  }

  lemma ZeroReads()
    ensures Number("0" + "") == 0
  {
    NumberSnoc("", '0');
    assert "0" + "" == "" + ['0'];
  }

  /** ... and it is one: the canonical string of every quantity is such a numeral of its value. */
  lemma CanonicalIsNumeral(d: Dec) returns (negative: bool, a: string, b: string)
    ensures Numeral(Canonical(d), negative, a, b) && (b != "" ==> b[|b| - 1] != '0')
    ensures negative ==> Number(a + b) != 0
    ensures SameValue(d, ValueOf(negative, a, b))
  {
    if d.unscaled == 0 {
      negative, a, b := false, "0", "";
      ZeroReads();
    } else {
      var x := Strip(d);
      StripKeepsValue(d);
      negative := x.unscaled < 0;
      a, b := StrippedNumeral(x);
      SameValueTransitive(d, x, ValueOf(negative, a, b));
    }
  }
}
