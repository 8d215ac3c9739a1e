/** The pricing sums that App.tsx, CartSidebar.tsx, StickySummary.tsx and
    PDFGenerator.tsx each compute with `Array.prototype.reduce`, written once.
    Amounts are exact; the 18% GST rate is fixed. */
module Pricing {
  import opened Types

  /** `lines.reduce((acc, l) => acc + f(l), 0)`: a left fold. */
  function SumReal(lines: seq<Line>, f: Line -> real): real
  {
    if lines == [] then 0.0
    else SumReal(lines[..|lines| - 1], f) + f(lines[|lines| - 1])
  }

  /** The same fold over integer-valued line measures. */
  function SumInt(lines: seq<Line>, f: Line -> int): int
  {
    if lines == [] then 0
    else SumInt(lines[..|lines| - 1], f) + f(lines[|lines| - 1])
  }

  lemma {:induction false} SumRealAppend(a: seq<Line>, b: seq<Line>, f: Line -> real)
    ensures SumReal(a + b, f) == SumReal(a, f) + SumReal(b, f)
    decreases |b|
  {
    if b == [] {
      assert a + b == a;
    } else {
      assert (a + b)[..|a + b| - 1] == a + b[..|b| - 1];
      SumRealAppend(a, b[..|b| - 1], f);
    }
  }

  lemma {:induction false} SumIntAppend(a: seq<Line>, b: seq<Line>, f: Line -> int)
    ensures SumInt(a + b, f) == SumInt(a, f) + SumInt(b, f)
    decreases |b|
  {
    if b == [] {
      assert a + b == a;
    } else {
      assert (a + b)[..|a + b| - 1] == a + b[..|b| - 1];
      SumIntAppend(a, b[..|b| - 1], f);
    }
  }

  /** Replacing one line changes the sum by the difference of the two lines. */
  lemma {:induction false} SumRealUpdate(s: seq<Line>, k: nat, x: Line, f: Line -> real)
    requires k < |s|
    ensures SumReal(s[k := x], f) == SumReal(s, f) - f(s[k]) + f(x)
    decreases |s|
  {
    var n := |s|;
    if k == n - 1 {
      assert s[k := x][..n - 1] == s[..n - 1];
    } else {
      assert s[k := x][..n - 1] == s[..n - 1][k := x];
      SumRealUpdate(s[..n - 1], k, x, f);
    }
  }

  lemma {:induction false} SumIntUpdate(s: seq<Line>, k: nat, x: Line, f: Line -> int)
    requires k < |s|
    ensures SumInt(s[k := x], f) == SumInt(s, f) - f(s[k]) + f(x)
    decreases |s|
  {
    var n := |s|;
    if k == n - 1 {
      assert s[k := x][..n - 1] == s[..n - 1];
    } else {
      assert s[k := x][..n - 1] == s[..n - 1][k := x];
      SumIntUpdate(s[..n - 1], k, x, f);
    }
  }

  /** Removing one line lowers the sum by that line. */
  lemma SumIntRemove(s: seq<Line>, k: nat, f: Line -> int)
    requires k < |s|
    ensures SumInt(s[..k] + s[k + 1..], f) == SumInt(s, f) - f(s[k])
  {
    SumIntAppend(s[..k], s[k + 1..], f);
    SumIntAppend(s[..k], [s[k]], f);
    SumIntAppend(s[..k] + [s[k]], s[k + 1..], f);
    assert s[..k] + [s[k]] + s[k + 1..] == s;
    assert SumInt([s[k]], f) == f(s[k]) by { assert [s[k]][..0] == []; }
  }

  /** `item.price * item.quantity`. */
  function LineOneTime(l: Line): real { l.item.price * l.quantity as real }

  /** `(item.monthlyPrice || 0) * item.quantity`. */
  function LineMonthly(l: Line): real { MonthlyOrZero(l.item) * l.quantity as real }

  function LineQuantity(l: Line): int { l.quantity }

  /** Σ price × quantity. */
  function OneTimeSubtotal(lines: seq<Line>): real { SumReal(lines, LineOneTime) }

  /** Σ (monthlyPrice or 0) × quantity. */
  function MonthlySubtotal(lines: seq<Line>): real { SumReal(lines, LineMonthly) }

  /** Σ quantity: the item count shown in the headers. */
  function ItemCount(lines: seq<Line>): int { SumInt(lines, LineQuantity) }

  const TaxRate: real := 0.18

  /** GST on a one-time subtotal. */
  function Tax(subtotal: real): real { subtotal * TaxRate }

  /** Subtotal plus GST. */
  function TotalOneTime(subtotal: real): real { subtotal + Tax(subtotal) }

  /** App.tsx writes the total as `subtotal * 1.18`; the other call sites as
      subtotal plus 18% of it. In exact arithmetic they agree. */
  lemma TotalWithTaxAgrees(subtotal: real)
    ensures subtotal * 1.18 == TotalOneTime(subtotal)
    ensures TotalOneTime(subtotal) - subtotal == Tax(subtotal)
  {
  }

  predicate AllAtLeast(lines: seq<Line>, floor: int) {
    forall i :: 0 <= i < |lines| ==> lines[i].quantity >= floor
  }

  /** Non-negative prices and quantities give non-negative subtotals. */
  lemma {:induction false} SubtotalsNonNegative(lines: seq<Line>)
    requires AllAtLeast(lines, 0)
    requires forall i :: 0 <= i < |lines| ==> lines[i].item.price >= 0.0 && MonthlyOrZero(lines[i].item) >= 0.0
    ensures OneTimeSubtotal(lines) >= 0.0 && MonthlySubtotal(lines) >= 0.0
    decreases |lines|
  {
    if lines != [] {
      var n := |lines|;
      var l := lines[n - 1];
      SubtotalsNonNegative(lines[..n - 1]);
      assert l.item.price * l.quantity as real >= 0.0;
      assert MonthlyOrZero(l.item) * l.quantity as real >= 0.0;
    }
  }

  /** When every line has quantity at least 1, the item count is at least the
      number of lines, so it is zero exactly when there are no lines. */
  lemma {:induction false} ItemCountBounds(lines: seq<Line>)
    requires AllAtLeast(lines, 1)
    ensures ItemCount(lines) >= |lines|
    ensures ItemCount(lines) == 0 <==> lines == []
    decreases |lines|
  {
    if lines != [] {
      ItemCountBounds(lines[..|lines| - 1]);
    }
  }

  /** The worked example: two lines at 1000 × 2 and at 500 × 1 with 200 per
      month give 2500 one-time, 450 GST, 2950 in total and 200 per month. */
  lemma WorkedExample(a: ServiceItem, b: ServiceItem)
    requires a.price == 1000.0 && a.monthlyPrice.None?
    requires b.price == 500.0 && b.monthlyPrice == Wrappers.Some(200.0)
    ensures OneTimeSubtotal([Line(a, 2), Line(b, 1)]) == 2500.0
    ensures Tax(2500.0) == 450.0 && TotalOneTime(2500.0) == 2950.0
    ensures MonthlySubtotal([Line(a, 2), Line(b, 1)]) == 200.0
  {
    var lines := [Line(a, 2), Line(b, 1)];
    assert lines[..1] == [Line(a, 2)] && lines[..1][..0] == [];
    assert LineOneTime(Line(a, 2)) == 2000.0 && LineMonthly(Line(a, 2)) == 0.0;
    assert LineOneTime(Line(b, 1)) == 500.0 && LineMonthly(Line(b, 1)) == 200.0;
    assert SumReal([Line(a, 2)], LineOneTime) == SumReal([], LineOneTime) + LineOneTime(Line(a, 2));
    assert SumReal([Line(a, 2)], LineMonthly) == SumReal([], LineMonthly) + LineMonthly(Line(a, 2));
  }
}
