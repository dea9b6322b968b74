/** What an invoice charges, said without the arithmetic that computes it: which invoice a cart becomes, and which carts
    are accepted. */
module PriceLaws {
  import opened Money
  import opened Domain
  import opened Sums
  import opened SplitLegs
  import opened Points
  import opened Store
  import opened Books
  import opened SaleSteps
  import opened SellingSteps

  // ----- line by line, as the stored columns say -----

  ghost function BeforeDiscount(): Line -> int { (line: Line) => line.total + line.discount }

  ghost function AfterDiscount(): Line -> int { (line: Line) => line.total }

  predicate TaxIs(taxable: Amount, rate: real, vat: Amount)
  {
    if rate > 0.0 then NearestReal(taxable as real * (rate / 100.0), vat) else vat == 0
  }

  /** The invoice a cart becomes. Each line costs its price times its quantity to the nearest cent, less its discount;
      the subtotal is what the lines cost before their discounts; VAT is the rate on what is left after all of them; a
      customer earns a point for every ten units of the total. Everything else is the cart's. */
  ghost predicate Invoiced(cart: Sale, till: Till, s: Sale)
  {
    && s == cart.(id := s.id, lines := s.lines, subtotal := s.subtotal, vat := s.vat, total := s.total,
                  status := s.status, points := s.points)
    && (if cart.id == NoId then s.id == till.freshId else s.id == cart.id)
    && |s.lines| == |cart.lines|
    && (forall k :: 0 <= k < |s.lines| ==>
         && s.lines[k] == cart.lines[k].(total := s.lines[k].total)
         && Nearest(s.lines[k].price * s.lines[k].qty, 1000, s.lines[k].total + s.lines[k].discount))
    && s.subtotal == Sum(s.lines, BeforeDiscount())
    && s.total - s.vat + s.discount == Sum(s.lines, AfterDiscount())
    && TaxIs(s.total - s.vat, till.vatRate, s.vat)
    && (if cart.customer != NoId then Nearest(s.total, 1000, s.points) else s.points == cart.points)
    && (s.status == Pending <==> cart.payMethod == Credit || cart.payMethod == Installments)
    && (s.status == Pending || s.status == Completed)
  }

  lemma PricedLineIs(cart: Line, line: Line)
    ensures line == PricedLine(cart) <==>
              line == cart.(total := line.total)
              && Nearest(line.price * line.qty, 1000, line.total + line.discount)
  {
    hide MulQty, Nearest;
    MulQtyIsNearest(cart.price, cart.qty);
    if line == cart.(total := line.total) && Nearest(line.price * line.qty, 1000, line.total + line.discount) {
      NearestOnce(line.price * line.qty, 1000, line.total + line.discount, MulQty(cart.price, cart.qty));
    }
  }

  lemma PricedLinesAre(cart: seq<Line>, lines: seq<Line>)
    ensures lines == PricedLines(cart) <==>
              |lines| == |cart| && forall k :: 0 <= k < |lines| ==>
                && lines[k] == cart[k].(total := lines[k].total)
                && Nearest(lines[k].price * lines[k].qty, 1000, lines[k].total + lines[k].discount)
  {
    hide Nearest, PricedLine;
    if |lines| == |cart| {
      forall k | 0 <= k < |lines|
        ensures lines[k] == PricedLine(cart[k]) <==>
                  lines[k] == cart[k].(total := lines[k].total)
                  && Nearest(lines[k].price * lines[k].qty, 1000, lines[k].total + lines[k].discount)
      {
        PricedLineIs(cart[k], lines[k]);
      }
      var priced := PricedLines(cart);
      if lines == priced {
        forall k | 0 <= k < |lines| ensures lines[k] == PricedLine(cart[k]) { assert lines[k] == priced[k]; }
      }
    }
  }

  lemma PricedSums(cart: seq<Line>)
    ensures Sum(PricedLines(cart), BeforeDiscount()) == Sum(cart, GrossOf())
    ensures Sum(PricedLines(cart), AfterDiscount()) == Sum(cart, NetOf())
  {
    hide Sum, Gross;
    SumSame(PricedLines(cart), BeforeDiscount(), cart, GrossOf());
    SumSame(PricedLines(cart), AfterDiscount(), cart, NetOf());
  }

  lemma VatIs(taxable: Amount, rate: real, vat: Amount)
    ensures vat == Vat(taxable, rate) <==> TaxIs(taxable, rate, vat)
  {
    hide Percentage, NearestReal;
    PercentageIsNearest(taxable, rate, vat);
  }

  lemma PointsAre(total: Amount, points: int)
    ensures points == PointsFor(total) <==> Nearest(total, 1000, points)
  {
    hide Div;
    DivThousandIsNearest(total);
    if Nearest(total, 1000, points) { NearestOnce(total, 1000, points, Div(total, 1000)); }
  }

  /** The invoice computed from a cart - any cart - is the one invoice those rules allow. */
  lemma InvoicedIff(cart: Sale, till: Till, s: Sale)
    ensures Invoiced(cart, till, s) <==> s == Invoice(cart, till)
  {
    hide Sum, Nearest, TaxIs, Vat, PricedLines, Div;
    PricedLinesAre(cart.lines, s.lines);
    PricedSums(cart.lines);
    VatIs(s.total - s.vat, till.vatRate, s.vat);
    PointsAre(s.total, s.points);
  }

  // ----- which carts are accepted -----

  predicate WithinOneCent(a: Amount, b: Amount) { -1 <= a - b <= 1 }

  /** Said of the invoice `s` the cart becomes. */
  ghost predicate Acceptable(db: Db, till: Till, s: Sale)
  {
    && s.lines != []
    && (till.mayDiscount || (s.discount <= 0 && forall k :: 0 <= k < |s.lines| ==> s.lines[k].discount <= 0))
    && (forall k :: 0 <= k < |s.lines| ==> var line := s.lines[k];
         && line.qty > 0 && line.discount >= 0 && line.total >= 0
         && line.product in db.products
         && var p := db.products[line.product];
            WithinOneCent(p.price, line.price) || (p.wholesalePrice > 0 && WithinOneCent(p.wholesalePrice, line.price)))
    && (forall p :: p in db.products ==> Sum(s.lines, Ordered(p)) <= db.products[p].stock)
    && 0 <= s.discount <= Sum(s.lines, AfterDiscount())
    && (forall k :: 0 <= k < |db.sales| ==> db.sales[k].id != s.id)
    && (s.customer != NoId ==> s.customer in db.customers)
    && (s.customer == NoId ==> s.payMethod != Credit && s.payMethod != Installments)
    && (s.payMethod == Split && s.split.Some? ==>
         && (forall m :: m in s.split.value ==> 0 <= s.split.value[m] <= s.total)
         && SumMap(s.split.value) == s.total
         && (s.customer == NoId && Credit in s.split.value ==> s.split.value[Credit] == 0))
    && (s.payMethod == Installments && s.plan.Some? ==>
         && 0 <= s.plan.value.downPayment <= s.total
         && (s.plan.value.schedule.Some? ==> var entries := s.plan.value.schedule.value;
              && (forall k :: 0 <= k < |entries| ==> entries[k].amount >= 0)
              && Sum(entries, ScheduledAmount()) == s.total - s.plan.value.downPayment))
    && (till.requireShift ==> exists k :: 0 <= k < |db.shifts| && db.shifts[k].isOpen)
  }

  lemma SameOrdered(cart: seq<Line>, p: Id)
    ensures Sum(PricedLines(cart), Ordered(p)) == Sum(cart, Ordered(p))
  {
    hide Sum;
    SumSame(PricedLines(cart), Ordered(p), cart, Ordered(p));
  }

  lemma LinesAcceptable(products: map<Id, Product>, cart: seq<Line>)
    ensures (forall k :: 0 <= k < |cart| ==> CartLineOk(cart[k])) && Sellable(products, cart) <==>
              (forall k :: 0 <= k < |cart| ==> var line := PricedLines(cart)[k];
                && line.qty > 0 && line.discount >= 0 && line.total >= 0
                && line.product in products
                && var p := products[line.product];
                   WithinOneCent(p.price, line.price)
                   || (p.wholesalePrice > 0 && WithinOneCent(p.wholesalePrice, line.price)))
              && (forall p :: p in products ==> Sum(PricedLines(cart), Ordered(p)) <= products[p].stock)
  {
    hide Sum, Gross, Ordered;
    forall p ensures Sum(PricedLines(cart), Ordered(p)) == Sum(cart, Ordered(p)) { SameOrdered(cart, p); }
    forall k | 0 <= k < |cart| ensures PricedLines(cart)[k] == PricedLine(cart[k]) {}
  }

  /** A sale succeeds exactly when the invoice the cart becomes is acceptable. */
  lemma SellsIff(db: Db, cart: Sale, till: Till, s: Sale)
    requires Invoiced(cart, till, s)
    ensures CanSell(db, cart, till) <==> Acceptable(db, till, s)
  {
    hide Sum, SumMap, Vat, Gross, Invoiced, PricedLines, Sellable, CartLineOk, WithinOneCent;
    InvoicedIff(cart, till, s);
    LinesAcceptable(db.products, cart.lines);
    PricedSums(cart.lines);
    forall k | 0 <= k < |cart.lines| ensures s.lines[k].discount == cart.lines[k].discount {}
    ShiftOpenIff(db.shifts);
  }

  lemma ShiftOpenIff(shifts: seq<Shift>)
    ensures ActiveShift(shifts).Some? <==> exists k :: 0 <= k < |shifts| && shifts[k].isOpen
  {
  }

  /** The new row of the sales table is that invoice; the earlier rows stay. */
  lemma SoldInvoice(db: Db, cart: Sale, till: Till, db': Db)
    requires Sold(db, cart, till, db')
    ensures |db'.sales| == |db.sales| + 1 && db'.sales[..|db.sales|] == db.sales
    ensures Invoiced(cart, till, db'.sales[|db.sales|])
  {
    hide CanSell, Invoice, StockTaken, SaleRows, Invoiced;
    InvoicedIff(cart, till, Invoice(cart, till));
  }
}
