/** The ledger laws across one partial return. */
module PartialReturnLaws {
  import opened Money
  import opened Domain
  import opened Sums
  import opened Refunds
  import opened SplitLegs
  import opened Store
  import opened Books
  import opened SaleSteps
  import opened Points
  import opened PartialReturnSteps
  import opened CreditLegs
  import opened FullReturnSteps

  ghost function SaleAt(db: Db, id: Id): Sale
    requires FindSale(db.sales, id).Some?
  {
    db.sales[FindSale(db.sales, id).value]
  }

  ghost function RefundOf(db: Db, id: Id, product: Id, qty: Milli): Amount
    requires CanReturnPart(db, id, product, qty)
  {
    ReturnPart(SaleAt(db, id), product, qty).value.amount
  }

  /** Stock keeps agreeing with the movements. */
  lemma StockKept(db: Db, id: Id, product: Id, qty: Milli, db': Db, p: Id)
    requires PartlyReturned(db, id, product, qty, db') && p in db.products
    ensures p in db'.products && StockGap(db', p) == StockGap(db, p)
  {
    hide ReturnPart, PartialRows, CustomersAfterPart;
    SumAppend(db.movements, Movement(product, PartialReturnIn, qty, id), StockIn(p));
  }

  /** The goods of `p` on the `j`-th invoice are in order after a partial return: it is another invoice, or a live one,
      or one that has none of `p` out. The code asks for none of this. */
  ghost predicate GoodsUnharmed(db: Db, id: Id, product: Id, j: nat, p: Id)
    requires j < |db.sales|
  {
    var s := db.sales[j];
    s.id == id ==> Live(s) || (p != product && Sum(s.lines, StillOut(p)) == 0)
  }

  /** The goods restored match the goods marked returned exactly when the invoice was live; else more of a product can
      come back than went out. A deleted product restores nothing. */
  lemma FlowKeptIff(db: Db, id: Id, product: Id, qty: Milli, db': Db, j: nat, p: Id)
    requires DbOk(db) && PartlyReturned(db, id, product, qty, db') && j < |db.sales|
    ensures j < |db'.sales| && db'.sales[j].id == db.sales[j].id
    ensures var s := db.sales[j];
            FlowGap(db', j, p) == FlowGap(db, j, p)
              + if s.id != id then 0
                else (if Live(s) then 0 else Sum(s.lines, StillOut(p)))
                     - (if p == product && p !in db.products then qty else 0)
    ensures p in db.products ==> FlowGap(db', j, p) >= FlowGap(db, j, p)
    ensures p in db.products ==> (FlowGap(db', j, p) == FlowGap(db, j, p) <==> GoodsUnharmed(db, id, product, j, p))
    ensures Live(SaleAt(db, id)) ==> FlowGap(db', j, p) <= FlowGap(db, j, p)
  {
    hide PartialRows, CustomersAfterPart, RestOfInvoice, Sum;
    var i := FindSale(db.sales, id).value;
    SumAppend(db.movements, Movement(product, PartialReturnIn, qty, id), SaleFlow(db.sales[j].id, p));
    if j == i {
      assert StoredSaleOk(db, db.sales[i]);
      LinesOut(db.sales[i], product, qty, p);
      PartialReturnKeepsKey(db.sales[i], product, qty);
    }
  }

  /** With no goods out of step and the product still in the catalogue, a partial return restores no more than was sold
      exactly when the invoice is live. */
  lemma OverRestoresIff(db: Db, id: Id, product: Id, qty: Milli, db': Db)
    requires DbOk(db) && PartlyReturned(db, id, product, qty, db') && product in db.products
    requires FlowGap(db, FindSale(db.sales, id).value, product) == 0
    ensures FindSale(db.sales, id).value < |db'.sales|
    ensures FlowGap(db', FindSale(db.sales, id).value, product) <= 0 <==> Live(SaleAt(db, id))
  {
    hide PartialRows, CustomersAfterPart, ReturnPart, FlowGap, DbOk;
    FlowKeptIff(db, id, product, qty, db', FindSale(db.sales, id).value, product);
  }

  /** What the lines have out after a partial return, whatever the invoice's status was. */
  lemma LinesOut(sale: Sale, product: Id, qty: Milli, p: Id)
    requires SaleOk(sale) && ReturnPart(sale, product, qty).Ok?
    ensures var out := Sum(sale.lines, StillOut(p)) - (if p == product then qty else 0);
            GoodsOut(ReturnPart(sale, product, qty).value.sale, p) == out >= 0
  {
    hide Sum;
    var sale' := ReturnPart(sale, product, qty).value.sale;
    var li := FirstLine(sale.lines, product).value;
    PartialReturnStep(sale, product, qty);
    SumUpdate(sale.lines, li, sale'.lines[li], StillOut(p));
    StillOutNonNegative(sale'.lines, p);
    if sale'.status == Returned {
      SumZero(sale'.lines, StillOut(p));
    }
  }

  /** This is all the invoice has out. */
  predicate LastPiece(sale: Sale, product: Id, qty: Milli)
  {
    match FirstLine(sale.lines, product)
    case None => false
    case Some(li) =>
      && qty == sale.lines[li].qty - sale.lines[li].returned
      && forall k :: 0 <= k < |sale.lines| && k != li ==> sale.lines[k].returned >= sale.lines[k].qty
  }

  /** After a partial return the invoice counts as live, and can be returned in full, exactly when that was not its last
      piece - also when it had been returned in full before. */
  lemma ReturnableAgainIff(db: Db, id: Id, product: Id, qty: Milli, db': Db)
    requires DbOk(db) && PartlyReturned(db, id, product, qty, db')
    ensures CanReturn(db', id) <==> !LastPiece(SaleAt(db, id), product, qty)
  {
    hide PartialRows, CustomersAfterPart, ReturnPart, GoodsBack, LastPiece, SaleOk;
    var i := FindSale(db.sales, id).value;
    SaleStored(db, i);
    LiveUnlessLast(db.sales[i], product, qty);
    PartialReturnKeepsKey(db.sales[i], product, qty);
    SameFind(db.sales, db'.sales, id);
  }

  lemma LiveUnlessLast(sale: Sale, product: Id, qty: Milli)
    requires SaleOk(sale) && ReturnPart(sale, product, qty).Ok?
    ensures Live(ReturnPart(sale, product, qty).value.sale) <==> !LastPiece(sale, product, qty)
  {
    hide ReturnPart, RestOfInvoice, Quo, Sum;
    QuantityInRange(sale, product, qty);
    PartialReturnStep(sale, product, qty);
    var lines := ReturnPart(sale, product, qty).value.sale.lines;
    var li := FirstLine(sale.lines, product).value;
    if !AllReturned(lines) {
      var k :| 0 <= k < |lines| && lines[k].returned < lines[k].qty;
      assert k != li ==> lines[k] == sale.lines[k];
    }
    if LastPiece(sale, product, qty) {
      forall k | 0 <= k < |lines|
        ensures lines[k].returned >= lines[k].qty { assert k != li ==> lines[k] == sale.lines[k]; }
    } else if AllReturned(lines) {
      assert lines[li].returned >= lines[li].qty;
      forall k | 0 <= k < |lines| && k != li
        ensures sale.lines[k].returned >= sale.lines[k].qty { assert lines[k] == sale.lines[k]; }
    }
  }

  lemma QuantityInRange(sale: Sale, product: Id, qty: Milli)
    requires ReturnPart(sale, product, qty).Ok?
    ensures FirstLine(sale.lines, product).Some?
    ensures var line := sale.lines[FirstLine(sale.lines, product).value]; 0 < qty <= line.qty - line.returned
  {
  }

  lemma {:induction false} SameFind(a: seq<Sale>, b: seq<Sale>, id: Id)
    requires |a| == |b| && forall k :: 0 <= k < |a| ==> a[k].id == b[k].id
    ensures FindSale(a, id) == FindSale(b, id)
  {
    if a != [] { SameFind(a[..|a| - 1], b[..|b| - 1], id); }
  }

  /** An invoice settled by a single row keeps its rows equal to what it still stands for exactly when it was live; else
      the rows fall short of it. All others are untouched. */
  lemma InvoiceKeptIff(db: Db, id: Id, product: Id, qty: Milli, db': Db, j: nat)
    requires DbOk(db) && PartlyReturned(db, id, product, qty, db') && j < |db.sales|
    requires var s := db.sales[j]; s.id == id ==> s.payMethod != Credit && !(s.payMethod == Split && s.split.Some?)
    ensures j < |db'.sales| && InvoiceGap(db', j) <= InvoiceGap(db, j)
    ensures InvoiceGap(db', j) == InvoiceGap(db, j) <==> (db.sales[j].id == id ==> Live(db.sales[j]))
  {
    hide RestOfInvoice, Sum;
    var i := FindSale(db.sales, id).value;
    assert StoredSaleOk(db, db.sales[i]);
    PartialReturnStep(db.sales[i], product, qty);
    NewInvoiceRows(db, id, product, qty, db', j);
  }

  lemma NewInvoiceRows(db: Db, id: Id, product: Id, qty: Milli, db': Db, j: nat)
    requires DbOk(db) && PartlyReturned(db, id, product, qty, db') && j < |db.sales|
    ensures var s := db.sales[j];
            && (s.id != id ==> Sum(db'.payments, InvoiceRow(s.id)) == Sum(db.payments, InvoiceRow(s.id)))
            && (s.id == id && s.payMethod != Credit && !(s.payMethod == Split && s.split.Some?) ==>
                 Sum(db'.payments, InvoiceRow(s.id)) == Sum(db.payments, InvoiceRow(s.id))
                     - RefundOf(db, id, product, qty))
  {
    hide ReturnPart, Sum, CustomersAfterPart;
    var sale := SaleAt(db, id);
    var rows := db'.payments[|db.payments|..];
    var f := InvoiceRow(db.sales[j].id);
    SumGrows(db.payments, db'.payments, f);
    PartialRowsRef(sale, RefundOf(db, id, product, qty),
        PartialOverpaid(db.customers, sale, RefundOf(db, id, product, qty)), rows);
    if db.sales[j].id != id {
      SumZero(rows, f);
    } else if sale.payMethod != Credit && !(sale.payMethod == Split && sale.split.Some?) {
      SumOne(rows[0], f);
    }
  }

  /** An invoice returned in full can be partly returned again: the code checks no status. A cash or card invoice whose
      rows had come to zero then shows more paid out than was ever paid in. */
  lemma SecondRefundOverdraws(db: Db, id: Id, product: Id, qty: Milli, db': Db)
    requires DbOk(db) && PartlyReturned(db, id, product, qty, db')
    requires var s := SaleAt(db, id); s.payMethod == Cash || s.payMethod == Card
    requires InvoiceGap(db, FindSale(db.sales, id).value) == 0
    ensures Sum(db'.payments, InvoiceRow(id)) < 0 <==> !Live(SaleAt(db, id))
  {
    hide Sum, RestOfInvoice;
    var i := FindSale(db.sales, id).value;
    assert StoredSaleOk(db, db.sales[i]);
    PartialReturnStep(db.sales[i], product, qty);
    NewInvoiceRows(db, id, product, qty, db', i);
  }

  /** Sum over the sales table after one invoice was rewritten. */
  lemma SalesSum(db: Db, id: Id, product: Id, qty: Milli, db': Db, f: Sale -> int)
    requires PartlyReturned(db, id, product, qty, db')
    ensures Sum(db'.sales, f) == Sum(db.sales, f) - f(SaleAt(db, id))
              + f(ReturnPart(SaleAt(db, id), product, qty).value.sale)
  {
    hide ReturnPart, Sum, PartialRows, CustomersAfterPart;
    var i := FindSale(db.sales, id).value;
    SumUpdate(db.sales, i, db'.sales[i], f);
  }

  /** A customer's purchases keep agreeing with the totals of their live invoices exactly when the invoice was live - or
      there was nothing to take and it refunds all it has left. */
  ghost predicate PurchasesUnharmed(db: Db, id: Id, product: Id, qty: Milli, c: Id)
    requires CanReturnPart(db, id, product, qty) && c in db.customers
  {
    var s := SaleAt(db, id);
    s.customer == c ==> Live(s) || (db.customers[c].totalPurchases == 0 && RefundOf(db, id, product, qty) == s.total)
  }

  lemma PurchasesKeptIff(db: Db, id: Id, product: Id, qty: Milli, db': Db, c: Id)
    requires DbOk(db) && PartlyReturned(db, id, product, qty, db') && c in db.customers && PurchasesGap(db, c) >= 0
    ensures c in db'.customers
    ensures PurchasesGap(db', c) == PurchasesGap(db, c) <==> PurchasesUnharmed(db, id, product, qty, c)
  {
    hide RestOfInvoice, Sum, PartialRows;
    var i := FindSale(db.sales, id).value;
    assert StoredSaleOk(db, db.sales[i]);
    PartialReturnStep(db.sales[i], product, qty);
    SalesSum(db, id, product, qty, db', LiveTotal(c));
    LiveTotalBound(db, i, c);
  }

  lemma LiveTotalBound(db: Db, i: nat, c: Id)
    requires DbOk(db) && i < |db.sales|
    ensures LiveTotal(c)(db.sales[i]) <= Sum(db.sales, LiveTotal(c))
  {
    forall k | 0 <= k < |db.sales| ensures 0 <= LiveTotal(c)(db.sales[k]) {
      assert StoredSaleOk(db, db.sales[k]);
    }
    SumBoundsRow(db.sales, i, LiveTotal(c));
  }

  /** The refund takes no more off the customer's installment debt than this invoice owed. */
  ghost predicate InstallmentsUnharmed(db: Db, id: Id, product: Id, qty: Milli, c: Id)
    requires CanReturnPart(db, id, product, qty) && c in db.customers
  {
    var s := SaleAt(db, id);
    var amount, debt := RefundOf(db, id, product, qty), db.customers[c].installmentDebt;
    s.payMethod == Installments && s.customer == c ==>
      if Live(s) then Min(amount, debt) <= Owes(s) else debt == 0 && Outstanding(s) <= amount
  }

  /** Installment debt keeps agreeing with what live installment invoices owe exactly when the refund takes from it what
      this invoice owed, up to the refund. */
  lemma InstallmentsTaken(db: Db, id: Id, product: Id, qty: Milli, db': Db, c: Id)
    requires DbOk(db) && PartlyReturned(db, id, product, qty, db') && c in db.customers
    ensures c in db'.customers
    ensures var s := SaleAt(db, id);
            var amount, debt := RefundOf(db, id, product, qty), db.customers[c].installmentDebt;
            InstallmentGap(db', c) == InstallmentGap(db, c) <==>
              (s.payMethod == Installments && s.customer == c ==>
                 if Live(s) then Min(amount, debt) == Min(amount, Owes(s)) else debt == 0 && Outstanding(s) <= amount)
  {
    hide RestOfInvoice, Sum, PartialRows, GoodsBack, PartialCash, PartialOverpaid, CreditShare, ReferencesOk, OrdersOk,
         ShiftsOk, Div, SplitOk;
    var i := FindSale(db.sales, id).value;
    var s := db.sales[i];
    assert StoredSaleOk(db, s);
    PartialReturnStep(s, product, qty);
    SalesSum(db, id, product, qty, db', LiveInstallments(c));
    assert db'.sales[i].plan == s.plan;
    if s.payMethod == Installments { OutstandingWithinTotal(s); }
  }

  lemma OutstandingWithinTotal(sale: Sale)
    requires PlanOk(sale) && sale.payMethod == Installments
    ensures Outstanding(sale) <= sale.total
  {
    SumNonNegative(Schedule(sale), EntryAmount(true));
  }

  /** So, while the debt covers what the invoices owe, agreement is kept exactly when the refund stays within this
      one. */
  lemma InstallmentsKeptIff(db: Db, id: Id, product: Id, qty: Milli, db': Db, c: Id)
    requires DbOk(db) && PartlyReturned(db, id, product, qty, db') && c in db.customers && InstallmentGap(db, c) >= 0
    ensures c in db'.customers
    ensures InstallmentGap(db', c) == InstallmentGap(db, c) <==> InstallmentsUnharmed(db, id, product, qty, c)
  {
    hide DbOk, ReturnPart, InstallmentGap, Outstanding, GoodsBack, CustomersAfterPart, PartialRows, ShiftsAfterRefunds;
    InstallmentsTaken(db, id, product, qty, db', c);
    RefundPositive(db, id, product, qty);
    var s := SaleAt(db, id);
    if s.customer == c && s.payMethod == Installments && Live(s)
    { OwesWithinDebt(db, c, FindSale(db.sales, id).value); }
  }

  lemma RefundPositive(db: Db, id: Id, product: Id, qty: Milli)
    requires CanReturnPart(db, id, product, qty)
    ensures RefundOf(db, id, product, qty) > 0
  {
  }

  lemma OwesWithinDebt(db: Db, c: Id, i: nat)
    requires c in db.customers && InstallmentGap(db, c) >= 0 && i < |db.sales|
    requires var s := db.sales[i]; s.customer == c && Live(s) && s.payMethod == Installments
    ensures Owes(db.sales[i]) <= db.customers[c].installmentDebt
  {
    hide Sum;
    SumBoundsRow(db.sales, i, LiveInstallments(c));
  }

  /** When a refund of a split invoice that was sold with a credit leg leaves the debt right. A live invoice's last
      piece asks for the whole leg it was sold with, which must be what the debt can give and the leg still is. Before
      anything else came back, with at most one other leg, the debt need only cover the share. Otherwise the floors must
      agree: what the debt gives is what the other legs do not lose. Once returned, the invoice must have no more to
      give back and the customer no debt. */
  ghost predicate SplitUnharmed(s: Sale, amount: Amount, debt: Amount)
    requires s.split.Some? && SumMap(s.split.value) != 0 && s.total != 0
  {
    if !Live(s) then amount == s.total && debt == 0
    else if amount == s.total then Min(debt, LegOf(s.split.value, Credit)) == OnCredit(s)
    else if s.total == SumMap(s.split.value) && |OtherLegs(s.split.value)| <= 1 then CreditShare(s, amount) <= debt
    else Min(debt, CreditShare(s, amount)) == amount - OthersLose(s.split.value, s.total, amount)
  }

  /** The refund is harmless to the agreement of the customer's debt. */
  ghost predicate DebtUnharmed(db: Db, id: Id, product: Id, qty: Milli, c: Id)
    requires CanReturnPart(db, id, product, qty) && c in db.customers && SaleAt(db, id).total != 0
  {
    var s := SaleAt(db, id);
    s.customer == c ==>
      && (s.payMethod == Credit ==> Live(s))
      && (s.payMethod == Split && s.split.Some? && SumMap(s.split.value) != 0 && LegOf(s.split.value, Credit) > 0 ==>
           SplitUnharmed(s, RefundOf(db, id, product, qty), db.customers[c].debt))
  }

  /** For a split invoice these conditions say that the debt falls by exactly what the invoice's credit leg loses. */
  lemma SplitUnharmedMeans(s: Sale, amount: Amount, debt: Amount)
    requires s.payMethod == Split && SplitOk(s) && s.split.Some? && LegOf(s.split.value, Credit) > 0
    requires 0 < amount <= s.total && debt >= 0
    ensures SumMap(s.split.value) > 0
    ensures SplitUnharmed(s, amount, debt) <==>
              Min(debt, CreditShare(s, amount)) ==
                (if Live(s) then OnCredit(s) else 0) - CreditLegOf(s.total - amount, s.split)
  {
    hide SumMap, Quo, CreditLegOf, OthersShare, CreditShare, OtherLegs;
    var legs := s.split.value;
    var left := CreditLegOf(s.total - amount, Some(legs));
    assert s.split == Some(legs);
    CreditLegPositive(legs, s.total - amount);
    CreditShareNonNegative(s, amount);
    if amount == s.total { ShareOfRest(s); }
    CreditLegIsRest(legs, s.total);
    CreditLegIsRest(legs, s.total - amount);
    if s.total == SumMap(legs) && |OtherLegs(legs)| <= 1 {
      FirstShareExcess(legs, amount);
      CreditShareIs(s, amount);
    }
  }

  lemma CreditShareIs(s: Sale, amount: Amount)
    requires s.total > 0 && s.split.Some? && LegOf(s.split.value, Credit) > 0
    ensures CreditShare(s, amount) == Quo(amount * s.split.value[Credit], s.total)
  {
  }

  /** Without a credit leg nothing moves. */
  lemma NoCreditMoves(s: Sale, total: Amount, amount: Amount)
    requires s.split.Some? ==> LegOf(s.split.value, Credit) <= 0
    requires s.total != 0
    ensures CreditShare(s, amount) == 0 && CreditLegOf(total, s.split) == 0
  {
    hide SumMap;
  }

  /** Debt drop plus cash handed back equals the value returned of a credit invoice. Debt keeps agreeing with live
      credit less settlements exactly when a credit invoice was live, and the refund of a split one harmless. */
  lemma DebtKeptIff(db: Db, id: Id, product: Id, qty: Milli, db': Db, c: Id)
    requires DbOk(db) && PartlyReturned(db, id, product, qty, db') && c in db.customers
    ensures c in db'.customers
    ensures var s := SaleAt(db, id);
            s.payMethod == Credit && s.customer == c ==>
              (db.customers[c].debt - db'.customers[c].debt)
                  + PartialOverpaid(db.customers, s, RefundOf(db, id, product, qty))
                == RefundOf(db, id, product, qty)
    ensures DebtGap(db', c) == DebtGap(db, c) <==> DebtUnharmed(db, id, product, qty, c)
  {
    hide PartlyReturned, DebtGap, ReturnPart, SplitUnharmed, CreditLegOf, CreditShare, SumMap, ReferencesOk, ShiftsOk,
         OrdersOk, PartialOverpaid, Quo;
    DebtMoves(db, id, product, qty, db', c);
    var i := FindSale(db.sales, id).value;
    var s := db.sales[i];
    var amount := RefundOf(db, id, product, qty);
    SaleStored(db, i);
    PartialReturnStep(s, product, qty);
    if s.payMethod == Split && s.customer == c {
      if s.split.Some? && LegOf(s.split.value, Credit) > 0 {
        SplitUnharmedMeans(s, amount, db.customers[c].debt);
      } else {
        NoCreditMoves(s, s.total, amount);
        NoCreditMoves(s, s.total - amount, amount);
      }
    }
  }

  /** What a partial return does to the agreement: the debt falls by what it can of the share, live credit by what it
      loses. */
  lemma DebtMoves(db: Db, id: Id, product: Id, qty: Milli, db': Db, c: Id)
    requires DbOk(db) && PartlyReturned(db, id, product, qty, db') && c in db.customers
    ensures CanReturnPart(db, id, product, qty) && SaleAt(db, id).total != 0 && c in db'.customers
    ensures var s := SaleAt(db, id);
            s.payMethod == Credit && s.customer == c ==>
              (db.customers[c].debt - db'.customers[c].debt)
                  + PartialOverpaid(db.customers, s, RefundOf(db, id, product, qty))
                == RefundOf(db, id, product, qty)
    ensures var s := SaleAt(db, id);
            var amount := RefundOf(db, id, product, qty);
            DebtGap(db', c) == DebtGap(db, c) +
              if s.customer != c then 0
              else match s.payMethod
                case Credit => if Live(s) then 0 else -s.total
                case Split => (if Live(s) then OnCredit(s) else 0) - CreditLegOf(s.total - amount, s.split)
                                - Min(db.customers[c].debt, CreditShare(s, amount))
                case _ => 0
  {
    hide RestOfInvoice, Sum, Quo, Div, CreditLegOf, CreditShare, PartialRows, GoodsBack;
    var i := FindSale(db.sales, id).value;
    var s := db.sales[i];
    assert StoredSaleOk(db, s);
    PartialReturnStep(s, product, qty);
    PartialReturnKeepsKey(s, product, qty);
    SalesSum(db, id, product, qty, db', LiveCredit(c));
    SettlingRows(db, id, product, qty, db', c);
    if s.payMethod == Split {
      CreditShareNonNegative(s, RefundOf(db, id, product, qty));
      CreditLegAtEnd(s.split);
    }
  }

  /** A refund of a split invoice takes the credit leg's floor share of it, out of the current total, off the debt, or
      whatever debt there is. */
  lemma SplitDebtFalls(db: Db, id: Id, product: Id, qty: Milli, db': Db)
    requires DbOk(db) && PartlyReturned(db, id, product, qty, db')
    requires SaleAt(db, id).payMethod == Split && SaleAt(db, id).split.Some? && SaleAt(db, id).customer in db.customers
    ensures SaleAt(db, id).customer in db'.customers && |db'.sales| == |db.sales|
    ensures var s := SaleAt(db, id);
            var before, after := db.customers[s.customer].debt, db'.customers[s.customer].debt;
            var leg := LegOf(s.split.value, Credit);
            var refund := s.total - db'.sales[FindSale(db.sales, id).value].total;
            && (after > 0 ==> 0 <= refund * leg - (before - after) * s.total < s.total)
            && (after == 0 ==> before * s.total <= refund * leg)
  {
    hide ReturnPart, Quo, Div, CreditShare, PartialRows, GoodsBack, SalesTableOk, ReferencesOk, ShiftsOk, OrdersOk,
         SaleOk, PartialCash, PartialOverpaid;
    var i := FindSale(db.sales, id).value;
    var s := db.sales[i];
    SaleStored(db, i);
    PartialReturnStep(s, product, qty);
    var amount := ReturnPart(s, product, qty).value.amount;
    ShareOfCredit(s, amount, db.customers[s.customer].debt);
  }

  lemma ShareOfCredit(sale: Sale, amount: Amount, debt: Amount)
    requires sale.split.Some? && NonNegative(sale.split.value) && sale.total > 0 && amount >= 0 && debt >= 0
    ensures var leg, share := LegOf(sale.split.value, Credit), CreditShare(sale, amount);
            && 0 <= amount * leg - share * sale.total < sale.total && share >= 0
            && (debt <= share ==> debt * sale.total <= amount * leg)
  {
    var leg, share := LegOf(sale.split.value, Credit), CreditShare(sale, amount);
    Mono(amount, 0, leg);
    Division(amount * leg, sale.total);
    if debt <= share { Mono(sale.total, debt, share); }
  }

  lemma CreditShareNonNegative(sale: Sale, amount: Amount)
    requires sale.total > 0 && amount >= 0
    ensures CreditShare(sale, amount) >= 0
  {
    if sale.split.Some? && LegOf(sale.split.value, Credit) > 0 {
      Mono(amount, 0, LegOf(sale.split.value, Credit));
      DivAtLeast(amount * LegOf(sale.split.value, Credit), sale.total, 0);
    }
  }

  /** What a partial return does to the points in excess of those the customer's live invoices stand for. */
  lemma PointsMove(db: Db, id: Id, product: Id, qty: Milli, db': Db, c: Id)
    requires DbOk(db) && PartlyReturned(db, id, product, qty, db') && c in db.customers
    ensures c in db'.customers
    ensures var s := SaleAt(db, id);
            var amount := RefundOf(db, id, product, qty);
            PointsGap(db', c) == PointsGap(db, c) + if s.customer != c then 0 else
              (if Live(s) then PointsFor(s.total) else 0) - PointsFor(s.total - amount)
                - Min(db.customers[c].points, PointsFor(amount))
  {
    hide RestOfInvoice, Sum, Quo, PartialRows, GoodsBack, CreditShare, Div;
    var i := FindSale(db.sales, id).value;
    var s := db.sales[i];
    assert StoredSaleOk(db, s);
    PartialReturnStep(s, product, qty);
    SalesSum(db, id, product, qty, db', LivePoints(c));
    DivThousand(0);
  }

  lemma SettlingRows(db: Db, id: Id, product: Id, qty: Milli, db': Db, c: Id)
    requires DbOk(db) && PartlyReturned(db, id, product, qty, db')
    ensures var s := SaleAt(db, id);
            Sum(db'.payments, Settles(c)) == Sum(db.payments, Settles(c))
              - (if s.customer == c then PartialOverpaid(db.customers, s, RefundOf(db, id, product, qty)) else 0)
  {
    hide ReturnPart, Sum, CustomersAfterPart;
    var sale := SaleAt(db, id);
    var amount := RefundOf(db, id, product, qty);
    var rows := db'.payments[|db.payments|..];
    SumGrows(db.payments, db'.payments, Settles(c));
    PartialReturnKeepsKey(sale, product, qty);
    if sale.payMethod == Credit && rows != [] {
      SumOne(rows[0], Settles(c));
    } else {
      PartialRowsNote(sale, amount, PartialOverpaid(db.customers, sale, amount), rows);
      SumZero(rows, Settles(c));
    }
  }

  lemma PartialRowsNote(sale: Sale, amount: Amount, over: Amount, rows: seq<Payment>)
    requires sale.total != 0 && PartialRows(sale, amount, over, rows)
    ensures sale.payMethod != Credit ==> forall k :: 0 <= k < |rows| ==> rows[k].note == PartialReturnRow
  {
    if sale.payMethod == Split && sale.split.Some? {
      forall k | 0 <= k < |rows| ensures rows[k].note == PartialReturnRow {
        assert IsLegRow(rows[k], PartialShares(sale, amount), sale, -1, PartialReturnRow);
      }
    }
  }

  lemma SharesNonNegative(amount: Amount, legs: Legs, of: Amount)
    requires NonNegative(legs) && amount >= 0 && of > 0
    ensures NonNegative(Shares(amount, legs, of))
  {
    forall m | m in legs && legs[m] > 0 ensures ShareOf(amount, of)(legs[m]) >= 0 {
      Mono(amount, 0, legs[m]);
      DivAtLeast(amount * legs[m], of, 0);
    }
  }

  /** The cash rows of a partial return are exactly the cash the shift is told about. */
  lemma PartialCashRows(sale: Sale, customers: map<Id, Customer>, amount: Amount, rows: seq<Payment>)
    requires sale.total > 0 && SplitOk(sale) && amount >= 0
    requires PartialRows(sale, amount, PartialOverpaid(customers, sale, amount), rows)
    requires sale.customer in customers ==> customers[sale.customer].debt >= 0
    ensures Sum(rows, CashIn()) == -PartialCash(sale, PartialOverpaid(customers, sale, amount), amount)
  {
    hide Sum, Quo, RowPerLeg;
    if sale.payMethod == Split && sale.split.Some? {
      SharesNonNegative(amount, sale.split.value - {Credit}, sale.total);
      LegRowsSum(rows, PartialShares(sale, amount), sale, -1, PartialReturnRow);
    } else if rows != [] {
      SumOne(rows[0], CashIn());
    } else {
      SumZero(rows, CashIn());
    }
  }

  /** A partial return hands back, method by method: each leg's floor share of the refund, out of the current total; the
      overpaid credit in cash; or all of the refund by the invoice's own method. */
  lemma PartialRowsByMethod(sale: Sale, customers: map<Id, Customer>, amount: Amount, rows: seq<Payment>, m: PayMethod)
    requires sale.total > 0 && SplitOk(sale) && amount >= 0
    requires PartialRows(sale, amount, PartialOverpaid(customers, sale, amount), rows)
    requires sale.customer in customers ==> customers[sale.customer].debt >= 0
    ensures var out := -Sum(rows, ByMethod(m));
            if sale.payMethod == Split && sale.split.Some? && m != Credit then
              0 <= amount * LegOf(sale.split.value, m) - out * sale.total < sale.total
            else if sale.payMethod == Split && sale.split.Some? then out == 0
            else if sale.payMethod == Credit && m == Cash then
              out == if sale.customer in customers && customers[sale.customer].debt < amount
                     then amount - customers[sale.customer].debt else 0
            else out == if m == sale.payMethod && m != Credit then amount else 0
  {
    hide Sum, Quo, RowPerLeg, Shares, Scale;
    if sale.payMethod == Split && sale.split.Some? {
      SharesNonNegative(amount, sale.split.value - {Credit}, sale.total);
      LegRowsOf(rows, PartialShares(sale, amount), sale, -1, PartialReturnRow, m);
      ShareIsFloor(sale, amount, m);
    } else if rows != [] {
      SumOne(rows[0], ByMethod(m));
    } else {
      SumZero(rows, ByMethod(m));
    }
  }

  lemma ShareIsFloor(sale: Sale, amount: Amount, m: PayMethod)
    requires sale.split.Some? && NonNegative(sale.split.value) && sale.total > 0 && amount >= 0
    ensures var share := LegOf(PartialShares(sale, amount), m);
            if m == Credit then share == 0
            else 0 <= amount * LegOf(sale.split.value, m) - share * sale.total < sale.total
  {
    var leg := LegOf(sale.split.value, m);
    Mono(amount, 0, leg);
    assert amount * leg == sale.total * (amount * leg / sale.total) + amount * leg % sale.total;
  }

  lemma PartialCashNonNegative(sale: Sale, customers: map<Id, Customer>, amount: Amount)
    requires sale.total > 0 && amount >= 0
    requires sale.customer in customers ==> customers[sale.customer].debt >= 0
    ensures PartialCash(sale, PartialOverpaid(customers, sale, amount), amount) >= 0
  {
    if sale.split.Some? && LegOf(sale.split.value, Cash) > 0 {
      Mono(amount, 0, LegOf(sale.split.value, Cash));
      DivAtLeast(amount * LegOf(sale.split.value, Cash), sale.total, 0);
    }
  }

  /** What a partial return pays out: the refund for an invoice settled by single rows, no more than it for a credit
      invoice, and for a split one, with the credit share, each leg's share of the original legs. How that compares with
      the refund is what SharesWithinRefundIff says. */
  lemma PartPaidOut(sale: Sale, customers: map<Id, Customer>, amount: Amount, rows: seq<Payment>)
    requires sale.total > 0 && SplitOk(sale) && amount >= 0
    requires PartialRows(sale, amount, PartialOverpaid(customers, sale, amount), rows)
    requires sale.customer in customers ==> customers[sale.customer].debt >= 0
    ensures var paid := -Sum(rows, AmountOf());
            if sale.payMethod == Split && sale.split.Some?
            then paid + CreditShare(sale, amount) == SumMap(Shares(amount, sale.split.value, sale.total))
            else if sale.payMethod == Credit then 0 <= paid <= amount
            else paid == amount
  {
    hide Sum, SumMap, Quo, RowPerLeg;
    if sale.payMethod == Split && sale.split.Some? {
      var legs := sale.split.value;
      SharesNonNegative(amount, legs - {Credit}, sale.total);
      LegRowsSum(rows, PartialShares(sale, amount), sale, -1, PartialReturnRow);
      SharesWithoutCredit(amount, legs, sale.total);
    } else if rows != [] {
      SumOne(rows[0], AmountOf());
    } else {
      SumZero(rows, AmountOf());
    }
  }

  lemma SharesWithoutCredit(amount: Amount, legs: Legs, of: Amount)
    requires of > 0
    ensures SumMap(Shares(amount, legs, of)) == SumMap(Shares(amount, legs - {Credit}, of))
              + if LegOf(legs, Credit) > 0 then Quo(amount * legs[Credit], of) else 0
  {
    hide SumMap, Quo;
    var all := Shares(amount, legs, of);
    assert Shares(amount, legs - {Credit}, of) == all - {Credit};
    if Credit in all { TakeKey(all, Credit); } else { assert all - {Credit} == all; }
  }

  /** The cash a partial return pays out. */
  ghost function CashOut(db: Db, id: Id, product: Id, qty: Milli): Amount
    requires CanReturnPart(db, id, product, qty) && SaleAt(db, id).total != 0
  {
    var s := SaleAt(db, id);
    var amount := RefundOf(db, id, product, qty);
    PartialCash(s, PartialOverpaid(db.customers, s, amount), amount)
  }

  /** The open shift's cash sales keep agreeing with the cash rows exactly when the cash paid out is covered by the
      shift's takings; otherwise the clamp swallows the difference. */
  lemma DrawerKeptIff(db: Db, id: Id, product: Id, qty: Milli, db': Db)
    requires DbOk(db) && PartlyReturned(db, id, product, qty, db')
    ensures ShiftsOk(db')
    ensures DrawerGap(db') == DrawerGap(db) + Uncovered(db.shifts, CashOut(db, id, product, qty)) >= DrawerGap(db)
  {
    hide ReturnPart, CustomersAfterPart, Sum, PartialRows, RestOfInvoice, CashOut, SalesTableOk, ReferencesOk, OrdersOk,
         CustomerOk;
    CashOfReturn(db, id, product, qty, db');
    var cash := CashOut(db, id, product, qty);
    CashOutIs(db, id, product, qty, db');
    ReturnKeepsShifts(db, db', RefundOf(db, id, product, qty), cash, false);
    DrawerAfterRefund(db, db', RefundOf(db, id, product, qty), cash, false);
  }

  lemma CashOutIs(db: Db, id: Id, product: Id, qty: Milli, db': Db)
    requires PartlyReturned(db, id, product, qty, db')
    ensures db'.shifts ==
              ShiftsAfterRefunds(db.shifts, RefundOf(db, id, product, qty), CashOut(db, id, product, qty), false)
  {
    hide ReturnPart, CustomersAfterPart, PartialRows, PartialOverpaid, PartialCash;
  }

  lemma CashOfReturn(db: Db, id: Id, product: Id, qty: Milli, db': Db)
    requires DbOk(db) && PartlyReturned(db, id, product, qty, db')
    ensures var cash := CashOut(db, id, product, qty);
            cash >= 0 && Sum(db'.payments[|db.payments|..], CashIn()) == -cash
  {
    hide ReturnPart, CustomersAfterPart, Sum, PartialRows, PartialOverpaid, PartialCash, RestOfInvoice;
    var s := SaleAt(db, id);
    assert StoredSaleOk(db, s);
    PartialReturnStep(s, product, qty);
    PartialCashRows(s, db.customers, RefundOf(db, id, product, qty), db'.payments[|db.payments|..]);
    PartialCashNonNegative(s, db.customers, RefundOf(db, id, product, qty));
  }
}
