/** The ledger laws across one sale. */
module SaleLaws {
  import opened Domain
  import opened Sums
  import opened SplitLegs
  import opened Points
  import opened Money
  import opened Store
  import opened Books
  import opened SaleSteps
  import opened SellingSteps

  /** After a sale its payment rows sum exactly to its total, for every payment method, and the cash among them is what
      the shift is told. */
  lemma RowsSumToTotal(sale: Sale, rows: seq<Payment>)
    requires SaleRows(sale, rows) && sale.total >= 0 && SplitAccepted(sale) && PlanAccepted(sale)
    ensures Sum(rows, AmountOf()) == sale.total && Sum(rows, CashIn()) == CashTaken(sale)
    ensures Sum(rows, InvoiceRow(sale.id)) == sale.total
  {
    hide SumMap, Schedule;
    SaleRowsRef(sale, rows);
    SumSame(rows, AmountOf(), rows, InvoiceRow(sale.id));
    if sale.payMethod == Split && sale.split.Some? {
      LegRowsSum(rows, sale.split.value, sale, 1, SplitRow);
    } else {
      TwoRowsSum(sale, rows, AmountOf());
      TwoRowsSum(sale, rows, CashIn());
    }
  }

  /** And method by method: the financed part and the down payment of an installment invoice, the legs of a split one,
      the whole total of any other. */
  lemma RowsByMethod(sale: Sale, rows: seq<Payment>, m: PayMethod)
    requires SaleRows(sale, rows) && sale.total >= 0 && SplitAccepted(sale) && PlanAccepted(sale)
    ensures Sum(rows, ByMethod(m)) ==
              if sale.payMethod == Split && sale.split.Some? then LegOf(sale.split.value, m)
              else if sale.payMethod == Installments && m == Cash then DownPayment(sale)
              else if sale.payMethod != m then 0
              else if m == Installments then sale.total - DownPayment(sale)
              else sale.total
  {
    hide SumMap, Schedule;
    if sale.payMethod == Split && sale.split.Some? {
      LegRowsOf(rows, sale.split.value, sale, 1, SplitRow, m);
    } else {
      TwoRowsSum(sale, rows, ByMethod(m));
    }
  }

  lemma TwoRowsSum(sale: Sale, rows: seq<Payment>, f: Payment -> int)
    requires SaleRows(sale, rows) && !(sale.payMethod == Split && sale.split.Some?)
    ensures var down := if sale.payMethod == Installments && DownPayment(sale) > 0 then DownPayment(sale) else 0;
            Sum(rows, f) ==
              (if sale.total - down > 0
                  then f(Payment(sale.id, sale.customer, sale.total - down, sale.payMethod, SaleRow)) else 0)
              + (if down > 0 then f(Payment(sale.id, sale.customer, down, Cash, DownPaymentRow)) else 0)
  {
    hide Sum;
    var down := if sale.payMethod == Installments && DownPayment(sale) > 0 then DownPayment(sale) else 0;
    var base := Payment(sale.id, sale.customer, sale.total - down, sale.payMethod, SaleRow);
    var first := Payment(sale.id, sale.customer, down, Cash, DownPaymentRow);
    SumOne(base, f);
    SumOne(first, f);
    SumZero([], f);
    SumConcat(if sale.total - down > 0 then [base] else [], if down > 0 then [first] else [], f);
  }

  lemma {:induction false} MovementsSum(lines: seq<Line>, id: Id, p: Id)
    ensures Sum(SaleMovements(lines, id), StockIn(p)) == -Sum(lines, Ordered(p))
    ensures Sum(SaleMovements(lines, id), SaleFlow(id, p)) == -Sum(lines, Ordered(p))
  {
    if lines != [] {
      var front, line := lines[..|lines| - 1], lines[|lines| - 1];
      MovementsSum(front, id, p);
      assert SaleMovements(lines, id) == SaleMovements(front, id) + [SaleMovement(line, id)];
      SumAppend(SaleMovements(front, id), SaleMovement(line, id), StockIn(p));
      SumAppend(SaleMovements(front, id), SaleMovement(line, id), SaleFlow(id, p));
    }
  }

  lemma StockKept(db: Db, cart: Sale, till: Till, db': Db, p: Id)
    requires Sold(db, cart, till, db') && p in db.products
    ensures p in db'.products && StockGap(db', p) == StockGap(db, p)
  {
    hide Sum, CanSell, Invoice, SaleRows, SaleMovements, CustomersAfterSale, CashTaken;
    var id := Invoice(cart, till).id;
    MovementsSum(cart.lines, id, p);
    SumConcat(db.movements, SaleMovements(cart.lines, id), StockIn(p));
  }

  lemma UnknownSale(db: Db, id: Id, p: Id)
    requires ReferencesOk(db) && FindSale(db.sales, id).None? && id != NoId
    ensures Sum(db.movements, SaleFlow(id, p)) == 0 && Sum(db.payments, InvoiceRow(id)) == 0
  {
    hide FindSale;
    forall k | 0 <= k < |db.movements| ensures SaleFlow(id, p)(db.movements[k]) == 0 {
      if db.movements[k].kind != Restock { assert SaleExists(db, db.movements[k].ref); }
    }
    forall k | 0 <= k < |db.payments| ensures InvoiceRow(id)(db.payments[k]) == 0 {
      if db.payments[k].sale != NoId { assert SaleExists(db, db.payments[k].sale); }
    }
    SumZero(db.movements, SaleFlow(id, p));
    SumZero(db.payments, InvoiceRow(id));
  }

  /** A new invoice has out what it sold, less what the cart already marked as returned; no other invoice's goods
      move. */
  lemma FlowStarts(db: Db, cart: Sale, till: Till, db': Db, j: nat, p: Id)
    requires DbOk(db) && Sold(db, cart, till, db') && till.freshId != NoId && j <= |db.sales|
    ensures j < |db'.sales|
    ensures FlowGap(db', j, p) == if j < |db.sales| then FlowGap(db, j, p) else -Sum(cart.lines, SentBack(p))
    ensures j < |db.sales| ==> db'.sales[j] == db.sales[j]
  {
    hide Sum, SaleRows, SaleMovements, CustomersAfterSale, CashTaken, StockTaken, Sellable, SplitAccepted, PlanAccepted,
         Vat;
    var sale := Invoice(cart, till);
    SumConcat(db.movements, SaleMovements(cart.lines, sale.id), SaleFlow(db'.sales[j].id, p));
    if j < |db.sales| {
      SumZero(SaleMovements(cart.lines, sale.id), SaleFlow(db.sales[j].id, p));
    } else {
      UnknownSale(db, sale.id, p);
      MovementsSum(cart.lines, sale.id, p);
      OutIsOrderedLessSent(sale.lines, cart.lines, p);
    }
  }

  lemma {:induction false} OutIsOrderedLessSent(lines: seq<Line>, sent: seq<Line>, p: Id)
    requires |lines| == |sent|
    requires forall k :: 0 <= k < |sent| ==>
               lines[k].product == sent[k].product && lines[k].qty == sent[k].qty
                   && lines[k].returned == sent[k].returned
    ensures Sum(lines, StillOut(p)) == Sum(sent, Ordered(p)) - Sum(sent, SentBack(p))
  {
    if sent != [] { OutIsOrderedLessSent(lines[..|lines| - 1], sent[..|sent| - 1], p); }
  }

  lemma PurchasesKept(db: Db, cart: Sale, till: Till, db': Db, c: Id)
    requires DbOk(db) && Sold(db, cart, till, db') && c in db.customers
    ensures c in db'.customers && PurchasesGap(db', c) == PurchasesGap(db, c)
  {
    hide Sum, SaleRows, SaleMovements, CashTaken, StockTaken, Sellable, SplitAccepted, PlanAccepted, Vat;
    SumAppend(db.sales, Invoice(cart, till), LiveTotal(c));
  }

  /** Installment debt stays in agreement exactly when the schedule arrives with nothing marked paid: that too is taken
      as sent. */
  lemma InstallmentsKeptIff(db: Db, cart: Sale, till: Till, db': Db, c: Id)
    requires DbOk(db) && Sold(db, cart, till, db') && c in db.customers
    ensures c in db'.customers
    ensures InstallmentGap(db', c) == InstallmentGap(db, c) <==>
              (cart.payMethod == Installments && cart.customer == c ==> Sum(Schedule(cart), EntryAmount(true)) == 0)
  {
    hide Sum, SaleRows, SaleMovements, CashTaken, StockTaken, Sellable, SplitAccepted, Vat;
    var sale := Invoice(cart, till);
    SumAppend(db.sales, sale, LiveInstallments(c));
    assert Schedule(sale) == Schedule(cart);
    InvoiceTotals(cart, till);
    if cart.payMethod == Installments {
      OutstandingIsUnpaid(sale);
      SumNonNegative(Schedule(sale), EntryAmount(true));
    }
  }

  /** Debt rises by exactly what the new invoice has on credit, be it the total or a leg of a split. */
  lemma DebtKept(db: Db, cart: Sale, till: Till, db': Db, c: Id)
    requires DbOk(db) && Sold(db, cart, till, db') && c in db.customers
    ensures c in db'.customers && DebtGap(db', c) == DebtGap(db, c)
  {
    hide Sum, SaleRows, SaleMovements, CashTaken, StockTaken, Sellable, PlanAccepted, Vat, SumMap, CreditLegOf;
    var sale := Invoice(cart, till);
    InvoiceTotals(cart, till);
    SumAppend(db.sales, sale, LiveCredit(c));
    SumGrows(db.payments, db'.payments, Settles(c));
    SaleRowsRef(sale, db'.payments[|db.payments|..]);
    SumZero(db'.payments[|db.payments|..], Settles(c));
    if sale.payMethod == Split {
      if sale.split.Some? { CreditLegAtSale(sale.split.value); } else { NoCreditLeg(sale.total); }
    }
  }

  lemma NoCreditLeg(total: Amount)
    ensures CreditLegOf(total, None) == 0
  {
  }

  /** Points rise by exactly what the new invoice stands for. */
  lemma PointsKept(db: Db, cart: Sale, till: Till, db': Db, c: Id)
    requires DbOk(db) && Sold(db, cart, till, db') && c in db.customers
    ensures c in db'.customers && PointsGap(db', c) == PointsGap(db, c)
  {
    hide Sum, SaleRows, SaleMovements, CashTaken, StockTaken, Sellable, SplitAccepted, PlanAccepted, Vat, Div;
    SumAppend(db.sales, Invoice(cart, till), LivePoints(c));
  }

  lemma InvoiceStarts(db: Db, cart: Sale, till: Till, db': Db, j: nat)
    requires DbOk(db) && Sold(db, cart, till, db') && till.freshId != NoId && j <= |db.sales|
    ensures j < |db'.sales|
    ensures InvoiceGap(db', j) == if j < |db.sales| then InvoiceGap(db, j) else 0
    ensures j < |db.sales| ==> db'.sales[j] == db.sales[j]
  {
    hide Sum, SaleRows, SaleMovements, CustomersAfterSale, CashTaken, StockTaken, Sellable, SplitAccepted, PlanAccepted,
         Vat;
    var sale := Invoice(cart, till);
    var rows := db'.payments[|db.payments|..];
    InvoiceTotals(cart, till);
    SumGrows(db.payments, db'.payments, InvoiceRow(db'.sales[j].id));
    SaleRowsRef(sale, rows);
    if j < |db.sales| {
      SumZero(rows, InvoiceRow(db.sales[j].id));
    } else {
      UnknownSale(db, sale.id, NoId);
      RowsSumToTotal(sale, rows);
    }
  }

  lemma DrawerKept(db: Db, cart: Sale, till: Till, db': Db)
    requires DbOk(db) && Sold(db, cart, till, db')
    ensures ShiftsOk(db') && DrawerGap(db') == DrawerGap(db)
  {
    hide Sum, SaleRows, SaleMovements, CustomersAfterSale, CashTaken, StockTaken, Sellable, SplitAccepted, PlanAccepted,
         Vat, ShiftsOk, SalesTableOk, ReferencesOk, OrdersOk, CustomerOk;
    var sale := Invoice(cart, till);
    SaleKeepsShifts(db, cart, till, db');
    InvoiceTotals(cart, till);
    RowsSumToTotal(sale, db'.payments[|db.payments|..]);
    DrawerAfterSales(db, db', sale.total, CashTaken(sale), true);
  }
}
