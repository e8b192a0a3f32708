/** Numbers as text in the position cache: keys, map ids and coordinates. Text is a sequence of bytes. */
module RedisText {
  import opened GoTypes

  type Text = seq<byte>

  const MINUS: byte := 45
  const DOT: byte := 46
  const ZERO: byte := 48

  const MIN_INT64 := -0x8000_0000_0000_0000

  predicate IsDigit(b: byte) {
    48 <= b <= 57
  }

  predicate AllDigits(t: Text) {
    forall i | 0 <= i < |t| :: IsDigit(t[i])
  }

  /** 64-bit wrap-around. */
  function Wrap64(n: int): int64 {
    (n + 0x8000_0000_0000_0000) % 0x1_0000_0000_0000_0000 - 0x8000_0000_0000_0000
  }

  /** What subtracting '0' from a byte gives, in bytes. */
  function DigitOf(b: byte): int {
    (b as int - 48) % 0x100
  }

  function Pow10(k: nat): (p: nat)
    ensures p >= 1
  {
    if k == 0 then 1 else 10 * Pow10(k - 1)
  }

  // ---------------------------------------------------------------------
  // Positional notation
  // ---------------------------------------------------------------------

  /** The number a string of digits stands for: each digit times its power of ten. */
  function Positional(ds: Text): int {
    if ds == [] then 0 else DigitOf(ds[0]) * Pow10(|ds| - 1) + Positional(ds[1..])
  }

  /** The same number as it is accumulated from the left. */
  function Accumulated(ds: Text): int {
    if ds == [] then 0 else Accumulated(ds[..|ds| - 1]) * 10 + DigitOf(ds[|ds| - 1])
  }

  lemma {:induction false} PositionalSnoc(ds: Text, b: byte)
    ensures Positional(ds + [b]) == Positional(ds) * 10 + DigitOf(b)
  {
    if ds == [] {
      assert ds + [b] == [b] && [b][1..] == [];
    } else {
      assert (ds + [b])[1..] == ds[1..] + [b];
      PositionalSnoc(ds[1..], b);
      hide DigitOf;
      Shifted(DigitOf(ds[0]), Pow10(|ds| - 1), Pow10(|ds|));
    }
  }

  lemma Shifted(d: int, p: int, q: int)
    requires q == 10 * p
    ensures d * q == d * p * 10
  {}

  lemma {:induction false} AccumulatedIsPositional(ds: Text)
    ensures Accumulated(ds) == Positional(ds)
  {
    if ds == [] {
    } else {
      AccumulatedIsPositional(ds[..|ds| - 1]);
      PositionalSnoc(ds[..|ds| - 1], ds[|ds| - 1]);
      assert ds[..|ds| - 1] + [ds[|ds| - 1]] == ds;
    }
  }

  /** The digits of a number, without leading zeros. */
  function Digits(n: nat): (ds: Text)
    ensures |ds| >= 1 && AllDigits(ds)
  {
    if n < 10 then [48 + n] else Digits(n / 10) + [48 + n % 10]
  }

  lemma {:induction false} DigitsStandFor(n: nat)
    ensures Positional(Digits(n)) == n
  {
    if n < 10 {
      assert Digits(n)[1..] == [];
    } else {
      DigitsStandFor(n / 10);
      PositionalSnoc(Digits(n / 10), 48 + n % 10);
    }
  }

  // ---------------------------------------------------------------------
  // Formatting integers
  // ---------------------------------------------------------------------

  /** The text of an integer; the smallest one has no counterpart of the other sign and comes out as a bare sign. */
  function IntText(v: int64): Text {
    if v == MIN_INT64 then [MINUS]
    else if v < 0 then [MINUS] + Digits(-v)
    else Digits(v)
  }

  /** The digits of a positive number, written into a 20-byte buffer from the back; nothing if it is not positive. */
  method FillDigits(v: int64) returns (tmp: array<byte>, i: int)
    ensures tmp.Length == 20 && 0 <= i <= 20
    ensures tmp[i..] == if v > 0 then Digits(v) else []
  {
    tmp := new byte[20];
    i := tmp.Length;
    if v <= 0 {
      return;
    }
    var w: int := v;
    TwentyDigits();
    while w > 0
      invariant 1 <= i <= 20 && 0 <= w < Pow10(i - 1)
      invariant Digits(v) == (if w > 0 then Digits(w) else []) + tmp[i..]
    {
      i := OneDigit(tmp, i, w);
      w := w / 10;
    }
  }

  method OneDigit(tmp: array<byte>, i: int, w: int) returns (j: int)
    requires tmp.Length == 20 && 1 <= i <= 20 && 0 < w < Pow10(i - 1)
    modifies tmp
    ensures 1 <= j == i - 1 && w / 10 < Pow10(j - 1)
    ensures (if w / 10 > 0 then Digits(w / 10) else []) + tmp[j..] == Digits(w) + old(tmp[i..])
  {
    assert Pow10(0) == 1;
    j := i - 1;
    tmp[j] := 48 + w % 10;
    assert tmp[j..] == [48 + w % 10] + old(tmp[i..]);
  }

  method AppendInt64(buf: Text, v: int64) returns (r: Text)
    ensures r == buf + IntText(v)
  {
    if v == 0 {
      return buf + [ZERO];
    }
    var w: int64, out := v, buf;
    if v < 0 {
      out := out + [MINUS];
      w := Wrap64(-(v as int));
    }
    var tmp, i := FillDigits(w);
    r := out + tmp[i..];
  }

  lemma TwentyDigits()
    ensures Pow10(19) == 10_000_000_000_000_000_000
  {
    assert Pow10(5) == 100_000;
    assert Pow10(10) == 10_000_000_000;
    assert Pow10(15) == 1_000_000_000_000_000;
  }

  method FormatInt64(v: int64) returns (t: Text)
    ensures t == IntText(v)
  {
    t := AppendInt64([], v);
  }

  // ---------------------------------------------------------------------
  // Parsing integers
  // ---------------------------------------------------------------------

  /** Accumulation from the left in 64 bits. */
  function Accumulated64(ds: Text): int64 {
    if ds == [] then 0 else Wrap64(Accumulated64(ds[..|ds| - 1]) as int * 10 + DigitOf(ds[|ds| - 1]))
  }

  function IntOf(t: Text): int64 {
    if t == [] then 0
    else if t[0] == MINUS then Wrap64(-(Accumulated64(t[1..]) as int))
    else Accumulated64(t)
  }

  method ParseInt(s: Text) returns (n: int64)
    ensures n == IntOf(s)
  {
    if s == [] {
      return 0;
    }
    var neg, i := false, 0;
    if s[i] == MINUS {
      neg, i := true, i + 1;
    }
    ghost var from := i;
    n := 0;
    while i < |s|
      invariant from <= i <= |s| && n == Accumulated64(s[from..i])
    {
      assert s[from..i + 1][..i - from] == s[from..i];
      n := Wrap64(n as int * 10 + DigitOf(s[i]));
      i := i + 1;
    }
    assert s[from..|s|] == s[from..];
    if neg {
      n := Wrap64(-(n as int));
    }
  }

  lemma {:induction false} Nonnegative(ds: Text)
    ensures Accumulated(ds) >= 0
  {
    if ds == [] {
    } else {
      Nonnegative(ds[..|ds| - 1]);
    }
  }

  /** As long as the number fits, no intermediate value wraps around. */
  lemma {:induction false} NoWrap(ds: Text)
    requires Accumulated(ds) < 0x8000_0000_0000_0000
    ensures Accumulated64(ds) == Accumulated(ds)
  {
    if ds == [] {
    } else {
      Nonnegative(ds[..|ds| - 1]);
      NoWrap(ds[..|ds| - 1]);
    }
  }

  /** Integers come back from their text, all but the smallest. */
  lemma IntRoundTripIff(v: int64)
    ensures IntOf(IntText(v)) == v <==> v != MIN_INT64
  {
    if v == MIN_INT64 {
      assert [MINUS][1..] == [];
    } else {
      var n := if v < 0 then -v else v;
      DigitsStandFor(n);
      AccumulatedIsPositional(Digits(n));
      NoWrap(Digits(n));
      if v < 0 {
        assert IntText(v)[1..] == Digits(n);
      }
    }
  }

  /** Different integers have different texts, the smallest included: no two roles share a key. */
  lemma IntTextInjective(u: int64, v: int64)
    requires IntText(u) == IntText(v)
    ensures u == v
  {
    IntRoundTripIff(u);
    IntRoundTripIff(v);
    NotABareSign(u);
    NotABareSign(v);
  }

  lemma NotABareSign(v: int64)
    ensures IntText(v) == [MINUS] <==> v == MIN_INT64
  {
    if v < 0 && v != MIN_INT64 {
      assert |IntText(v)| == 1 + |Digits(-v)|;
    } else if v >= 0 {
      assert IsDigit(IntText(v)[0]);
    }
  }

  // ---------------------------------------------------------------------
  // Parsing coordinates
  // ---------------------------------------------------------------------

  /** The value of digits after the point: each one worth a tenth of the one before. */
  function Fraction(ds: Text): real {
    if ds == [] then 0.0 else (DigitOf(ds[0]) as real + Fraction(ds[1..])) / 10.0
  }

  /** The part before the first point and, if there is one, the part after it. */
  function BeforeDot(t: Text): Text {
    if t == [] || t[0] == DOT then [] else [t[0]] + BeforeDot(t[1..])
  }

  function AfterDot(t: Text): Option<Text> {
    if t == [] then None else if t[0] == DOT then Some(t[1..]) else AfterDot(t[1..])
  }

  function Signed(neg: bool, v: real): real {
    if neg then -v else v
  }

  /** What parsing gives: nothing without a point, where the code divides zero by zero. The empty text is zero. */
  function FloatOf(t: Text): Option<real> {
    if t == [] then Some(0.0)
    else
      var neg := t[0] == MINUS;
      var body := if neg then t[1..] else t;
      match AfterDot(body)
      case None => None
      case Some(frac) =>
        Some(Signed(neg, Accumulated(BeforeDot(body)) as real + Accumulated(frac) as real / Pow10(|frac|) as real))
  }

  lemma {:induction false} DotSplits(t: Text, k: nat)
    requires k <= |t| && (forall j | 0 <= j < k :: t[j] != DOT) && (k < |t| ==> t[k] == DOT)
    ensures BeforeDot(t) == t[..k] && AfterDot(t) == if k < |t| then Some(t[k + 1..]) else None
  {
    if k == 0 {
    } else {
      DotSplits(t[1..], k - 1);
      assert t[..k] == [t[0]] + t[1..][..k - 1];
    }
  }

  /** The digits from index i on up to a point or the end. */
  method ScanInt(s: Text, from: nat) returns (intPart: real, i: nat)
    requires from <= |s|
    ensures from <= i <= |s| && (forall j | from <= j < i :: s[j] != DOT) && (i < |s| ==> s[i] == DOT)
    ensures intPart == Accumulated(s[from..i]) as real
  {
    intPart, i := 0.0, from;
    while i < |s| && s[i] != DOT
      invariant from <= i <= |s| && (forall j | from <= j < i :: s[j] != DOT)
      invariant intPart == Accumulated(s[from..i]) as real
    {
      assert s[from..i + 1][..i - from] == s[from..i];
      intPart := intPart * 10.0 + DigitOf(s[i]) as real;
      i := i + 1;
    }
  }

  /** The digits from index i on to the end, and the power of ten they are to be divided by. */
  method ScanFraction(s: Text, from: nat) returns (fracPart: real, fracDiv: real)
    requires from <= |s|
    ensures fracPart == Accumulated(s[from..]) as real && fracDiv == Pow10(|s| - from) as real
  {
    fracPart, fracDiv := 0.0, 1.0;
    var i := from;
    while i < |s|
      invariant from <= i <= |s| && fracPart == Accumulated(s[from..i]) as real && fracDiv == Pow10(i - from) as real
    {
      assert s[from..i + 1][..i - from] == s[from..i];
      fracPart := fracPart * 10.0 + DigitOf(s[i]) as real;
      fracDiv := fracDiv * 10.0;
      i := i + 1;
    }
    assert s[from..|s|] == s[from..];
  }

  method ParseFloat(s: Text) returns (r: Option<real>)
    ensures r == FloatOf(s)
  {
    if s == [] {
      return Some(0.0);
    }
    var neg, from := false, 0;
    if s[0] == MINUS {
      neg, from := true, 1;
    }
    var intPart, i := ScanInt(s, from);
    ghost var body := s[from..];
    DotSplits(body, i - from);
    assert body[..i - from] == s[from..i];
    if i == |s| {
      // The divisor is still zero, and so is the dividend.
      return None;
    }
    var fracPart, fracDiv := ScanFraction(s, i + 1);
    assert body[i - from + 1..] == s[i + 1..];
    var v := intPart + fracPart / fracDiv;
    r := Some(if neg then -v else v);
  }

  /** A decimal number, as its parts. */
  datatype Decimal = Decimal(neg: bool, whole: Text, frac: Text) {
    predicate Ok() {
      AllDigits(whole) && AllDigits(frac)
    }

    /** Without a zero at the end of the fraction. */
    predicate Trimmed() {
      frac == [] || frac[|frac| - 1] != ZERO
    }

    function Value(): real {
      Signed(neg, Positional(whole) as real + Fraction(frac))
    }

    function Sign(): Text {
      if neg then [MINUS] else []
    }

    /** With a point, always. */
    function WithDot(): Text {
      Sign() + whole + [DOT] + frac
    }

    /** As the cache's client writes a number: with a point only before digits. */
    function Shortest(): Text {
      if frac == [] then Sign() + whole else WithDot()
    }
  }

  /** The fraction by accumulation and division is the fraction digit by digit. */
  lemma {:induction false} FractionByPower(ds: Text)
    ensures Positional(ds) as real / Pow10(|ds|) as real == Fraction(ds)
  {
    if ds == [] {
    } else {
      FractionByPower(ds[1..]);
      Spread(DigitOf(ds[0]), Pow10(|ds| - 1), Positional(ds[1..]));
    }
  }

  lemma Spread(d: int, p: nat, q: int)
    requires p >= 1
    ensures (d * p + q) as real / (10 * p) as real == (d as real + q as real / p as real) / 10.0
  {
    var x, y, z := d as real, p as real, q as real;
    assert (d * p + q) as real == x * y + z;
    var r := (x + z / y) / 10.0;
    assert z / y * y == z;
    assert r * (10.0 * y) == x * y + z / y * y;
  }

  lemma NoDotInDigits(t: Text, tail: Text)
    requires AllDigits(t) && (tail != [] ==> tail[0] == DOT)
    ensures BeforeDot(t + tail) == t && AfterDot(t + tail) == if tail == [] then None else Some(tail[1..])
  {
    DotSplits(t + tail, |t|);
    assert (t + tail)[..|t|] == t;
    if tail != [] { assert (t + tail)[|t| + 1..] == tail[1..]; }
  }

  /** With a point, the parsed number is exactly the decimal that is written, for any number of digits. */
  lemma FloatOfDecimal(d: Decimal)
    requires d.Ok()
    ensures FloatOf(d.WithDot()) == Some(d.Value())
  {
    hide Fraction, Positional, Accumulated, Pow10;
    var t, tail := d.WithDot(), [DOT] + d.frac;
    var body := if d.neg then t[1..] else t;
    assert body == d.whole + tail && tail[1..] == d.frac;
    assert t[0] == MINUS <==> d.neg;
    NoDotInDigits(d.whole, tail);
    AccumulatedIsPositional(d.whole);
    AccumulatedIsPositional(d.frac);
    FractionByPower(d.frac);
  }

  /** A numeral reads back exactly when it has digits after the point; without a point it reads back as no number. */
  lemma ReadsBackIff(d: Decimal)
    requires d.Ok() && d.Shortest() != []
    ensures FloatOf(d.Shortest()) == Some(d.Value()) <==> d.frac != []
    ensures d.frac == [] ==> FloatOf(d.Shortest()) == None
  {
    if d.frac != [] {
      FloatOfDecimal(d);
    } else {
      var t := d.Shortest();
      assert t[0] == MINUS <==> d.neg;
      assert (if d.neg then t[1..] else t) == d.whole + [];
      NoDotInDigits(d.whole, []);
    }
  }

  lemma {:induction false} FractionBounds(ds: Text)
    requires AllDigits(ds)
    ensures 0.0 <= Fraction(ds) < 1.0
    ensures ds != [] && ds[|ds| - 1] != ZERO ==> Fraction(ds) > 0.0
  {
    if ds == [] {
    } else {
      assert IsDigit(ds[0]) && AllDigits(ds[1..]);
      FractionBounds(ds[1..]);
    }
  }

  predicate IsWhole(v: real) {
    v == v.Floor as real
  }

  /** A whole part and a proper fraction, with a sign, make a whole number exactly without the fraction. */
  lemma WholeIffNoFraction(neg: bool, w: int, f: real)
    requires 0.0 <= f < 1.0
    ensures IsWhole(Signed(neg, w as real + f)) <==> f == 0.0
  {
    var v := Signed(neg, w as real + f);
    if f == 0.0 {
      assert v == (if neg then -w else w) as real;
    } else {
      var k := if neg then -w - 1 else w;
      assert k as real < v < (k + 1) as real;
      assert v.Floor == k;
    }
  }

  /** A trimmed decimal has no digits after the point exactly if it is a whole number. */
  lemma NoFractionIffWhole(d: Decimal)
    requires d.Ok() && d.Trimmed()
    ensures d.frac == [] <==> IsWhole(d.Value())
  {
    FractionBounds(d.frac);
    assert d.frac == [] <==> Fraction(d.frac) == 0.0;
    hide Positional, Fraction, IsWhole, Signed;
    WholeIffNoFraction(d.neg, Positional(d.whole), Fraction(d.frac));
  }

  /** So, as the cache's client writes it, a number reads back exactly if it is not whole. */
  lemma ReadsBackIffNotWhole(d: Decimal)
    requires d.Ok() && d.Trimmed() && d.Shortest() != []
    ensures FloatOf(d.Shortest()) == if IsWhole(d.Value()) then None else Some(d.Value())
  {
    NoFractionIffWhole(d);
    ReadsBackIff(d);
  }

  // ---------------------------------------------------------------------
  // Byte by byte
  // ---------------------------------------------------------------------

  /** Each digit is the byte of its character: 48 for zero, and so on. */
  lemma {:induction false} DigitBytes(n: nat, k: nat)
    requires k < |Digits(n)|
    ensures Digits(n)[|Digits(n)| - 1 - k] == 48 + n / Pow10(k) % 10
  {
    if k == 0 {
      assert Pow10(0) == 1;
    } else {
      DigitBytes(n / 10, k - 1);
      TenTimes(n, Pow10(k - 1));
    }
  }

  lemma TenTimes(n: nat, b: nat)
    requires b >= 1
    ensures n / 10 / b == n / (10 * b)
  {
    var q := n / 10;
    QuotientBounds(q, b);
    var x := q / b;
    assert 10 * (x * b) <= n < 10 * (x * b + b);
    Tens(x, b);
    QuotientIs(n, 10 * b, x);
  }

  lemma Tens(x: nat, b: nat)
    ensures 10 * (x * b) == x * (10 * b)
  {}

  lemma QuotientBounds(q: nat, b: nat)
    requires b >= 1
    ensures q / b * b <= q < q / b * b + b
  {}

  lemma QuotientIs(n: nat, d: nat, q: nat)
    requires d >= 1 && q * d <= n < q * d + d
    ensures n / d == q
  {
    var p := n / d;
    QuotientBounds(n, d);
    Ordered(p + 1, q, d);
    Ordered(q + 1, p, d);
  }

  lemma Ordered(a: nat, b: nat, d: nat)
    requires a >= 1
    ensures a <= b ==> (a - 1) * d + d <= b * d
  {
    if a <= b {
      assert b * d == (a - 1) * d + d + (b - a) * d;
    }
  }

  /** With the bytes of '-' and '.', what is written for 150.5, -2.25, 100 and -120, and what it reads back as. */
  lemma TextExamples()
    ensures Decimal(false, [49, 53, 48], [53]).Shortest() == [49, 53, 48, 46, 53]
    ensures FloatOf([49, 53, 48, 46, 53]) == Some(150.5) && FloatOf([45, 50, 46, 50, 53]) == Some(-2.25)
    ensures Decimal(true, [50], [50, 53]).Shortest() == [45, 50, 46, 50, 53]
    ensures Decimal(false, [49, 48, 48], []).Shortest() == [49, 48, 48] && FloatOf([49, 48, 48]) == None
    ensures IntText(-120) == [45, 49, 50, 48] && IntOf([45, 49, 50, 48]) == -120
  {
    TwoParts();
    WithSign();
    NoPoint();
    IntExample();
  }

  lemma IntExample()
    ensures IntText(-120) == [45, 49, 50, 48] && IntOf([45, 49, 50, 48]) == -120
  {
    assert Digits(1) == [49] && Digits(12) == [49, 50] && Digits(120) == [49, 50, 48];
    hide Digits;
    assert IntText(-120) == [45] + [49, 50, 48];
    IntRoundTripIff(-120);
  }

  lemma TwoParts()
    ensures FloatOf([49, 53, 48, 46, 53]) == Some(150.5)
  {
    var d := Decimal(false, [49, 53, 48], [53]);
    FloatOfDecimal(d);
    assert d.WithDot() == [49, 53, 48, 46, 53];
    assert Positional([48]) == 0 && Positional([53, 48]) == 50 && Positional([49, 53, 48]) == 150 by {
      assert [49, 53, 48][1..] == [53, 48] && [53, 48][1..] == [48] && [48][1..] == [];
      assert Pow10(1) == 10 && Pow10(2) == 100;
    }
    assert [53][1..] == [];
    assert Fraction([53]) == 0.5;
  }

  lemma WithSign()
    ensures FloatOf([45, 50, 46, 50, 53]) == Some(-2.25)
  {
    var d := Decimal(true, [50], [50, 53]);
    FloatOfDecimal(d);
    assert d.WithDot() == [45, 50, 46, 50, 53];
    assert [50][1..] == [] && Positional([50]) == 2;
    assert [50, 53][1..] == [53] && [53][1..] == [];
    assert Fraction([53]) == 0.5 && Fraction([50, 53]) == 0.25;
  }

  lemma NoPoint()
    ensures FloatOf([49, 48, 48]) == None
  {
    var d := Decimal(false, [49, 48, 48], []);
    assert d.Shortest() == [49, 48, 48];
    ReadsBackIff(d);
  }
}
