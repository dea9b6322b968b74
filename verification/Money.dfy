/** Integer money, in cents (internal/core/domain/money.go). Go's int64 is modelled without its width. */
module Money {

  type Amount = int

  /** Quantities and stock are exact thousandths of a unit. */
  type Milli = int

  /** Go's integer quotient: truncates toward zero. */
  function Quo(a: int, b: int): (q: int)
    requires b != 0
    ensures a >= 0 && b > 0 ==> q == a / b
  {
    if a >= 0 then (if b > 0 then a / b else -(a / -b))
    else (if b > 0 then -(-a / b) else -a / -b)
  }

  /** Go's remainder: takes the sign of the dividend. */
  function Rem(a: int, b: int): (r: int)
    requires b != 0
    ensures a >= 0 && b > 0 ==> r == a % b
  {
    a - Quo(a, b) * b
  }

  function Abs(a: int): int { if a < 0 then -a else a }

  /** On all signs: the quotient never exceeds the exact one in size, and the remainder is smaller than the divisor and
      takes the dividend's sign. */
  lemma TruncatesTowardZero(a: int, b: int)
    requires b != 0
    ensures a == Quo(a, b) * b + Rem(a, b)
    ensures Abs(Quo(a, b) * b) <= Abs(a) && Abs(Rem(a, b)) < Abs(b)
    ensures (Rem(a, b) > 0 ==> a > 0) && (Rem(a, b) < 0 ==> a < 0)
  {
    var n, d := Abs(a), Abs(b);
    var q := n / d;
    Division(n, d);
    if (a >= 0) == (b > 0) {
      assert Quo(a, b) == q;
      assert q * b == if a >= 0 then q * d else -(q * d);
    } else {
      assert Quo(a, b) == -q;
      assert -q * b == if a >= 0 then q * d else -(q * d);
    }
  }

  lemma Division(n: int, d: int)
    requires n >= 0 && d > 0
    ensures 0 <= n / d * d <= n < n / d * d + d
  {
    DivAtLeast(n, d, 0);
    Mono(d, 0, n / d);
    assert n == d * (n / d) + n % d;
  }

  /** Amount.Div: quotient rounded to nearest, halves away from zero; zero for a zero divisor. */
  function Div(a: Amount, b: int): Amount
  {
    if b == 0 then 0
    else
      var q, r := Quo(a, b), Rem(a, b);
      if Abs(r) >= (Abs(b) + 1) / 2 then (if (a < 0) == (b < 0) then q + 1 else q - 1) else q
  }

  /** math.Round of n/1000: halves away from zero. */
  function RoundThousandth(n: int): int
  {
    if n >= 0 then (n + 500) / 1000 else -((-n + 500) / 1000)
  }

  /** Amount.MulFloat by a quantity in thousandths. */
  function MulQty(a: Amount, qty: Milli): Amount { RoundThousandth(a * qty) }

  /** math.Round on reals: halves away from zero. */
  function RoundReal(x: real): int
  {
    if x >= 0.0 then (x + 0.5).Floor else -((-x + 0.5).Floor)
  }

  /** Amount.Percentage, with the rate an exact real. */
  function Percentage(a: Amount, rate: real): Amount
  {
    RoundReal(a as real * (rate / 100.0))
  }

  /** Amount.RoundToNearest: floor to a multiple of `unit`. */
  function RoundToNearest(a: Amount, unit: Amount): Amount
  {
    if unit <= 0 then a
    else if a < 0 then Quo(a - unit + 1, unit) * unit
    else Quo(a, unit) * unit
  }

  /** RoundToNearest is the largest multiple of the unit not above the amount, on both sides of zero. */
  lemma RoundToNearestIsFloor(a: Amount, unit: Amount)
    requires unit > 0
    ensures RoundToNearest(a, unit) % unit == 0
    ensures RoundToNearest(a, unit) <= a < RoundToNearest(a, unit) + unit
  {
    var k := if a < 0 then Quo(a - unit + 1, unit) else Quo(a, unit);
    if a < 0 {
      var d := -(a - unit + 1);
      assert d == unit * (d / unit) + d % unit;
      assert k == -(d / unit);
      assert k * unit == -(unit * (d / unit));
    }
    MultipleOf(k, unit);
  }

  lemma MultipleOf(k: int, unit: int)
    requires unit > 0
    ensures (k * unit) % unit == 0
  {
    var q := (k * unit) / unit;
    assert unit * (k - q) == (k * unit) % unit;
    Cancel(unit, k - q, 0);
    Cancel(unit, 0, k - q);
  }

  /** Div by 1000 on non-negative amounts rounds halves up. */
  lemma DivThousand(a: Amount)
    requires a >= 0
    ensures Div(a, 1000) == (a + 500) / 1000
  {
    assert a == 1000 * (a / 1000) + a % 1000;
  }

  /** `g` is `n` over `d` rounded to the nearest integer, halves away from zero. */
  predicate Nearest(n: int, d: int, g: int)
  {
    && -d <= 2 * (d * g - n) <= d
    && (n >= 0 ==> -d < 2 * (d * g - n))
    && (n < 0 ==> 2 * (d * g - n) < d)
  }

  /** The same over reals. */
  predicate NearestReal(x: real, g: int)
  {
    && x - 0.5 <= g as real <= x + 0.5
    && (x >= 0.0 ==> x - 0.5 < g as real)
    && (x < 0.0 ==> g as real < x + 0.5)
  }

  lemma NearestOnce(n: int, d: int, g: int, h: int)
    requires d > 0 && Nearest(n, d, g) && Nearest(n, d, h)
    ensures g == h
  {
    Cancel(d, g, h);
    Cancel(d, h, g);
  }

  /** Price times quantity, the quantity in thousandths, rounds to the nearest cent on all signs. */
  lemma MulQtyIsNearest(a: Amount, qty: Milli)
    ensures Nearest(a * qty, 1000, MulQty(a, qty))
  {
  }

  /** Amount.Div by 1000, the points of a total, rounds to the nearest on all signs. */
  lemma DivThousandIsNearest(a: Amount)
    ensures Nearest(a, 1000, Div(a, 1000))
  {
  }

  lemma PercentageIsNearest(a: Amount, rate: real, vat: Amount)
    ensures vat == Percentage(a, rate) <==> NearestReal(a as real * (rate / 100.0), vat)
  {
  }

  lemma Mono(c: int, a: int, b: int)
    requires c >= 0 && a <= b
    ensures c * a <= c * b
  {
  }

  /** Cancellation of a positive factor, with slack below one factor. */
  lemma Cancel(c: int, a: int, b: int)
    requires c > 0 && c * a < c * b + c
    ensures a <= b
  {
    if a > b { Mono(c, b + 1, a); }
  }

  lemma DivAtMost(n: int, d: int, b: int)
    requires d > 0 && n < d * b + d
    ensures n / d <= b
  {
    assert n == d * (n / d) + n % d;
    Cancel(d, n / d, b);
  }

  lemma DivAtLeast(n: int, d: int, b: int)
    requires d > 0 && d * b <= n
    ensures b <= n / d
  {
    assert n == d * (n / d) + n % d;
    Cancel(d, b, n / d);
  }

  /** A floor share of a whole is within the whole: all of it for the full part, strictly less otherwise. */
  lemma FloorShare(whole: int, part: int, of: int)
    requires whole >= 0 && 0 <= part <= of && of > 0
    ensures 0 <= whole * part
    ensures 0 <= (whole * part) / of <= whole
    ensures part == of ==> (whole * part) / of == whole
    ensures part < of && whole > 0 ==> (whole * part) / of < whole
  {
    Mono(whole, 0, part);
    Mono(whole, part, of);
    assert whole * of == of * whole;
    DivAtLeast(whole * part, of, 0);
    DivAtMost(whole * part, of, whole);
    if part == of {
      DivAtLeast(whole * part, of, whole);
    } else if whole > 0 {
      Mono(whole, part, of - 1);
      assert whole * (of - 1) == of * (whole - 1) + of - whole;
      DivAtMost(whole * part, of, whole - 1);
    }
  }
}
