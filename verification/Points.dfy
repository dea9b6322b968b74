/** Loyalty points: one per thousand cents, rounded half up, awarded on the invoice and asked back piecewise on its
    returns (internal/service/sale_service.go, Amount.Div in internal/core/domain/money.go). */
module Points {
  import opened Money
  import opened Domain
  import opened Sums
  import opened Refunds

  function PointsFor(total: Amount): int { Div(total, 1000) }

  ghost function PointsOf(): Amount -> int { a => PointsFor(a) }

  /** Points asked back by a sequence of refunds. */
  ghost function AskedBack(refunds: seq<Amount>): int
  {
    Sum(refunds, PointsOf())
  }

  ghost predicate AreRefundsOf(total: Amount, refunds: seq<Amount>)
  {
    (forall k :: 0 <= k < |refunds| ==> refunds[k] >= 0) && Sum(refunds, Cents()) == total
  }

  /** What rounding leaves behind (or takes too much) when `refund` is cut off `total`. */
  function Carry(total: Amount, refund: Amount): int
  {
    PointsFor(total) - PointsFor(refund) - PointsFor(total - refund)
  }

  /** One cut asks back one point too many exactly when both pieces round up and together do not reach the next half. */
  lemma CarryIs(total: Amount, refund: Amount)
    requires 0 <= refund <= total
    ensures var a, b := refund % 1000, (total - refund) % 1000;
            Carry(total, refund) == if a >= 500 && b >= 500 && a + b < 1500 then -1
                                    else if a < 500 && b < 500 && a + b >= 500 then 1 else 0
  {
    DivThousand(total);
    DivThousand(refund);
    DivThousand(total - refund);
  }

  /** Over any number of returns the points asked back differ from those awarded by at most one per return after the
      first. */
  lemma {:induction false} AskedBackWithinReturns(total: Amount, refunds: seq<Amount>)
    requires AreRefundsOf(total, refunds)
    ensures total >= 0
    ensures refunds != [] ==> -(|refunds| - 1) <= AskedBack(refunds) - PointsFor(total) <= |refunds| - 1
    ensures refunds == [] ==> AskedBack(refunds) == PointsFor(total) == 0
    decreases |refunds|
  {
    if refunds != [] {
      var last := |refunds| - 1;
      var front := refunds[..last];
      AskedBackWithinReturns(total - refunds[last], front);
      CarryIs(total, refunds[last]);
    }
  }

  /** So it is for an invoice returned completely by partial returns followed by a full return of the rest. */
  lemma MixedReturnAsksBack(sale: Sale, requests: seq<(Id, Milli)>)
    requires SaleOk(sale) && !AllReturned(sale.lines) && RunParts(sale, requests).Some?
    ensures var run := RunParts(sale, requests).value;
            -|requests| <= AskedBack(run.refunds) + PointsFor(run.sale.total) - PointsFor(sale.total) <= |requests|
  {
    hide Sum, RunParts, Div, SaleOk, AllReturned;
    PartialReturnsSettle(sale, requests);
    var run := RunParts(sale, requests).value;
    assert run.sale.total >= 0 by { RemainingIsNonNegative(run.sale); }
    var refunds := run.refunds + [run.sale.total];
    SumAppend(run.refunds, run.sale.total, Cents());
    SumAppend(run.refunds, run.sale.total, PointsOf());
    AskedBackWithinReturns(sale.total, refunds);
  }

  lemma RemainingIsNonNegative(sale: Sale)
    requires SaleOk(sale)
    ensures sale.total >= 0
  {
  }

  // ----- invoices that ask back too much -----

  ghost function Left(): Line -> int { (line: Line) => if line.returned == 0 then line.total else 0 }

  /** No VAT and no discount, every product once, and every line back whole or not at all. */
  ghost predicate Plain(sale: Sale)
  {
    && SaleOk(sale) && sale.vat == 0 && sale.total == Sum(sale.lines, Left())
    && (forall k :: 0 <= k < |sale.lines| ==>
         sale.lines[k].returned == 0 || sale.lines[k].returned == sale.lines[k].qty)
    && (forall j, k :: 0 <= j < k < |sale.lines| ==> sale.lines[j].product != sale.lines[k].product)
  }

  /** Returning a whole line of a plain invoice refunds its price. */
  lemma WholeLineBack(sale: Sale, li: nat)
    requires Plain(sale) && li < |sale.lines| && sale.lines[li].returned == 0 && sale.lines[li].total > 0
    ensures var line := sale.lines[li];
            var r := ReturnPart(sale, line.product, line.qty);
            && r.Ok? && r.value.amount == line.total && Plain(r.value.sale)
            && r.value.sale.lines == sale.lines[li := line.(returned := line.qty)]
            && r.value.sale.total == sale.total - line.total
  {
    hide Sum, Settle, SaleOk;
    var line := sale.lines[li];
    LinesAreOk(sale);
    RestIsLeft(sale, li);
    WholeShare(line.total, line.qty);
    SumBoundsRow(sale.lines, li, Left());
    WholeShare(line.total, sale.total);
    assert sale.total * line.total == line.total * sale.total;
    var r := ReturnPart(sale, line.product, line.qty);
    PartialReturnStep(sale, line.product, line.qty);
    SumUpdate(sale.lines, li, r.value.sale.lines[li], Left());
  }

  lemma LinesAreOk(sale: Sale)
    requires SaleOk(sale)
    ensures forall k :: 0 <= k < |sale.lines| ==> LineOk(sale.lines[k])
  {
  }

  lemma WholeShare(total: Amount, of: int)
    requires total >= 0 && of > 0
    ensures Quo(total * of, of) == total
  {
    FloorShare(total, of, of);
  }

  lemma RestIsLeft(sale: Sale, li: nat)
    requires Plain(sale) && li < |sale.lines| && sale.lines[li].returned == 0
    ensures RestOfInvoice(sale.lines, sale.lines[li].product, 0) == sale.total
    ensures FirstLine(sale.lines, sale.lines[li].product) == Some(li)
  {
    hide Sum, Quo;
    var f := RestOf(sale.lines[li].product, 0);
    LinesAreOk(sale);
    forall k | 0 <= k < |sale.lines| ensures f(sale.lines[k]) == Left()(sale.lines[k]) {
      var line := sale.lines[k];
      WholeShare(line.total, line.qty);
      WholeShare(0, line.qty);
      assert line.total * 0 == 0 * line.qty;
    }
    SumSame(sale.lines, f, sale.lines, Left());
  }

  function Unit(product: Id, price: Amount): Line { Line(product, price, 1000, 0, price, 0) }

  /** Three units for cash, at 500, 500 and `price`. */
  ghost function ThreeUnits(price: Amount): Sale
  {
    var lines := [Unit(Id("a"), 500), Unit(Id("b"), 500), Unit(Id("c"), price)];
    Sale(Id("sale"), NoId, lines, 1000 + price, 0, 0, 1000 + price, Cash, Completed, None, None, 0)
  }

  lemma ThreeUnitsPlain(price: Amount)
    requires price >= 0
    ensures Plain(ThreeUnits(price)) && Untouched(ThreeUnits(price))
  {
    hide Sum;
    var s := ThreeUnits(price);
    SumThree(s.lines[0], s.lines[1], s.lines[2], Left());
  }

  /** The first `n` of them come back, in turn. */
  function Requests(n: nat): seq<(Id, Milli)>
    requires n <= 3
  {
    [(Id("a"), 1000), (Id("b"), 1000), (Id("c"), 1000)][..n]
  }

  /** They come back at their prices. */
  lemma {:induction false} ReturnedInTurn(price: Amount, n: nat)
    requires price >= 0 && n <= 3 && (n == 3 ==> price > 0)
    ensures RunParts(ThreeUnits(price), Requests(n)).Some?
    ensures var run := RunParts(ThreeUnits(price), Requests(n)).value;
            && Plain(run.sale) && run.refunds == [500, 500, price][..n]
            && run.sale.total == 1000 + price - (if n == 3 then 1000 + price else 500 * n)
            && |run.sale.lines| == 3 && forall k :: n <= k < 3 ==> run.sale.lines[k] == ThreeUnits(price).lines[k]
  {
    hide Sum, ReturnPart, Plain;
    if n == 0 {
      ThreeUnitsPlain(price);
    } else {
      ReturnedInTurn(price, n - 1);
      assert Requests(n)[..n - 1] == Requests(n - 1)
             && Requests(n)[n - 1] == (ThreeUnits(price).lines[n - 1].product, 1000);
      assert [500, 500, price][..n] == [500, 500, price][..n - 1] + [ThreeUnits(price).lines[n - 1].total];
      WholeLineBack(RunParts(ThreeUnits(price), Requests(n - 1)).value.sale, n - 1);
    }
  }

  lemma PlainMeans(sale: Sale)
    requires Plain(sale)
    ensures SaleOk(sale)
  {
  }

  lemma SumThree<T>(a: T, b: T, c: T, f: T -> int)
    ensures Sum([a, b, c], f) == f(a) + f(b) + f(c)
  {
    assert [a, b, c] == [a] + [b] + [c];
    SumAppend([], a, f);
    assert [] + [a] == [a];
    SumAppend([a], b, f);
    SumAppend([a] + [b], c, f);
  }

  /** Points asked back when `requests` are partial returns of an invoice and the rest, if any, is returned in full. */
  ghost function AskedInAll(sale: Sale, requests: seq<(Id, Milli)>): int
    requires RunParts(sale, requests).Some?
  {
    var run := RunParts(sale, requests).value;
    AskedBack(run.refunds) + PointsFor(run.sale.total)
  }

  /** The points asked back can exceed those awarded: an invoice of 1500 earns 2 points, and its three units, returned
      one by one, ask back 3. */
  lemma ThreeHalvesOverAsk()
    ensures var sale := ThreeUnits(500);
            && SaleOk(sale) && Untouched(sale) && sale.total == 1500 && PointsFor(1500) == 2
            && RunParts(sale, Requests(3)).Some? && AskedInAll(sale, Requests(3)) == 3
  {
    hide Sum, RunParts, Plain, AskedBack, PointsFor, SaleOk;
    ThreeUnitsPlain(500);
    PlainMeans(ThreeUnits(500));
    ReturnedInTurn(500, 3);
    assert [500, 500, 500][..3] == [500, 500, 500];
    ThreeHalves();
  }

  lemma ThreeHalves()
    ensures AskedBack([500, 500, 500]) == 3 && PointsFor(1500) == 2 && PointsFor(0) == 0
  {
    SumThree(500, 500, 500, PointsOf());
  }

  /** From 1000 cents on there is an invoice of every total whose returns ask back one point too many. */
  lemma OverAsked(total: Amount) returns (sale: Sale, requests: seq<(Id, Milli)>)
    requires total >= 1000
    ensures SaleOk(sale) && Untouched(sale) && sale.total == total && RunParts(sale, requests).Some?
    ensures AskedInAll(sale, requests) == PointsFor(total) + 1
  {
    hide Sum, RunParts;
    var price := total - 1000;
    sale, requests := ThreeUnits(price), Requests(2);
    ThreeUnitsPlain(price);
    ReturnedInTurn(price, 2);
    assert [500, 500, price][..2] == [500] + [500];
    SumAppend([500], 500, PointsOf());
    SumOne(500, PointsOf());
    DivThousand(total);
    DivThousand(total - 1000);
  }

  lemma UntouchedHasGoods(sale: Sale)
    requires SaleOk(sale) && Untouched(sale)
    ensures !AllReturned(sale.lines)
  {
    assert LineOk(sale.lines[0]);
  }

  /** Exactly the invoices below 1000 cents can never be over-asked, however they are returned. */
  lemma NeverOverAskedIff(total: Amount)
    requires total >= 0
    ensures (forall sale, requests ::
               SaleOk(sale) && !AllReturned(sale.lines) && sale.total == total && RunParts(sale, requests).Some? ==>
                 AskedInAll(sale, requests) <= PointsFor(total))
            <==> total < 1000
  {
    hide Sum, RunParts, SaleOk, Untouched, AllReturned;
    if total < 1000 {
      forall sale, requests | SaleOk(sale) && !AllReturned(sale.lines) && sale.total == total
          && RunParts(sale, requests).Some?
        ensures AskedInAll(sale, requests) <= PointsFor(total)
      {
        PartialReturnsSettle(sale, requests);
        var run := RunParts(sale, requests).value;
        RemainingIsNonNegative(run.sale);
        SumAppend(run.refunds, run.sale.total, Cents());
        SumAppend(run.refunds, run.sale.total, PointsOf());
        SmallInvoice(total, run.refunds + [run.sale.total]);
      }
    } else {
      var sale, requests := OverAsked(total);
      UntouchedHasGoods(sale);
    }
  }

  lemma {:induction false} SmallInvoice(total: Amount, refunds: seq<Amount>)
    requires 0 <= total < 1000 && AreRefundsOf(total, refunds)
    ensures AskedBack(refunds) <= PointsFor(total)
    decreases |refunds|
  {
    if refunds != [] {
      var last := |refunds| - 1;
      SumNonNegative(refunds[..last], Cents());
      SmallInvoice(total - refunds[last], refunds[..last]);
      DivThousand(total);
      DivThousand(refunds[last]);
      DivThousand(total - refunds[last]);
    }
  }
}
