/** Inputs on which selling, collecting, taking payments and receiving goods break a law, in the manner of Failures. */
module IntakeFailures {
  import opened Money
  import opened Domain
  import opened Sums
  import opened Refunds
  import opened SplitLegs
  import opened Points
  import opened Store
  import opened Books
  import opened SaleSteps
  import opened SellingSteps
  import opened PaymentSteps
  import opened FinanceSteps
  import opened PartialReturnLaws
  import opened Failures
  import SaleLaws

  // ----- collecting on an invoice that was not sold by installments -----

  /** A credit invoice that carries a plan: the sale does not look at it. */
  function PlanOnCredit(): Sale
  {
    Sale(S, C, [Line(P, 100, 1000, 0, 100, 0)], 100, 0, 0, 100, Credit, Pending, None,
         Some(Plan(0, Some([Installment(1, None, 100, false)]))), 0)
  }

  function CreditAndPlan(): Db { BooksOf(Customer(100, 500, 600, 0), [PlanOnCredit(), OtherPlan()], [], [], []) }

  lemma CreditAndPlanOk()
    ensures DbOk(CreditAndPlan()) && FindSale(CreditAndPlan().sales, S) == Some(0)
    ensures SaleAt(CreditAndPlan(), S) == PlanOnCredit()
    ensures C in CreditAndPlan().customers && InstallmentGap(CreditAndPlan(), C) == 0
  {
    hide DbOk, Sum, Outstanding;
    var db := CreditAndPlan();
    PlansOwe();
    assert LineOk(PlanOnCredit().lines[0]);
    BooksOk(db.customers[C], db.sales, [], [], []);
    SumOne(db.sales[0], LiveInstallments(C));
    assert db.sales == [db.sales[0]] + [db.sales[1]];
    SumAppend([db.sales[0]], db.sales[1], LiveInstallments(C));
  }

  /** Collecting its entry takes 100 off the installment debt, which was another invoice's. */
  lemma CollectsFromAnother() returns (db: Db, q: Collection, db': Db)
    ensures DbOk(db) && Collects(db, q, db') && C in db.customers && C in db'.customers
    ensures InstallmentGap(db, C) == 0 && InstallmentGap(db', C) != 0
    ensures SaleAt(db, q.sale).payMethod == Credit
  {
    hide DbOk, InstallmentGap, Outstanding;
    db, q := CreditAndPlan(), Collection(S, 0, 100, Card, false);
    CreditAndPlanOk();
    var sale := PlanOnCredit();
    db' := db.(
      sales := db.sales[0 := WithPaid(sale, 0)],
      payments := db.payments + [Payment(S, C, 100, Card, InstallmentRow(0))],
      customers := db.customers[C := db.customers[C].(installmentDebt := 400)]);
    CollectInstallmentsKeptIff(db, q, db', C);
  }

  // ----- a forced payment -----

  function OwesHundred(): Db { BooksOf(Customer(100, 0, 100, 0), [PlanOnCredit()], [], [], []) }

  lemma OwesHundredOk()
    ensures DbOk(OwesHundred()) && C in OwesHundred().customers && DebtGap(OwesHundred(), C) == 0
  {
    hide DbOk, Sum;
    var db := OwesHundred();
    assert LineOk(PlanOnCredit().lines[0]);
    BooksOk(db.customers[C], db.sales, [], [], []);
    SumOne(db.sales[0], LiveCredit(C));
    SumZero(db.payments, Settles(C));
  }

  /** 150 paid where 100 are owed: the clamp loses 50. */
  lemma ForcedPaymentLoses() returns (db: Db, q: PaymentRequest, db': Db)
    ensures DbOk(db) && Recorded(db, q, db') && C in db.customers && C in db'.customers
    ensures DebtGap(db, C) == 0 && DebtGap(db', C) != 0
  {
    hide DbOk, DebtGap;
    db, q := OwesHundred(), PaymentRequest(NoId, C, 150, Card, true, false);
    OwesHundredOk();
    db' := db.(payments := db.payments + [Payment(NoId, C, 150, Card, UserRow)],
               customers := db.customers[C := db.customers[C].(debt := 0)]);
    RecordDebtKeptIff(db, q, db', C);
  }

  // ----- what a cart brings along -----

  const TILL := Till(true, 0.0, false, Id("fresh"))

  /** One unit at 100. */
  function Cart(payMethod: PayMethod, plan: Option<Plan>, returned: Milli): Sale
  {
    Sale(S, C, [Line(P, 100, 1000, 0, 100, returned)], 100, 0, 0, 100, payMethod, Pending, None, plan, 0)
  }

  function OpeningDay(): Db { BooksOf(Customer(0, 0, 0, 0), [], [], [], []) }

  lemma OpeningDayOk()
    ensures DbOk(OpeningDay()) && C in OpeningDay().customers && InstallmentGap(OpeningDay(), C) == 0
  {
  }

  lemma CartTotals(payMethod: PayMethod, plan: Option<Plan>, returned: Milli)
    ensures var sale := Invoice(Cart(payMethod, plan, returned), TILL);
            sale.total == 100 && sale.id == S && sale.plan == plan
    ensures Sum(Cart(payMethod, plan, returned).lines, NetOf()) == 100
  {
    var line := Cart(payMethod, plan, returned).lines[0];
    assert MulQty(100, 1000) == 100;
    SumOne(line, NetOf());
    SumOne(line, GrossOf());
  }

  lemma CartSells(payMethod: PayMethod, plan: Option<Plan>, returned: Milli)
    requires payMethod != Split && PlanAccepted(Invoice(Cart(payMethod, plan, returned), TILL))
    ensures CanSell(OpeningDay(), Cart(payMethod, plan, returned), TILL)
  {
    hide PlanAccepted;
    var cart := Cart(payMethod, plan, returned);
    CartTotals(payMethod, plan, returned);
    assert MulQty(100, 1000) == 100;
    SumOne(cart.lines[0], Ordered(P));
    assert CartLineOk(cart.lines[0]);
  }

  /** What a sale that is not split leaves behind. */
  lemma AfterSale(db: Db, cart: Sale, till: Till) returns (db': Db)
    requires CanSell(db, cart, till) && Invoice(cart, till).payMethod != Split
    ensures Sold(db, cart, till, db')
  {
    hide CanSell, Invoice, DownPayment;
    var sale := Invoice(cart, till);
    var down := if sale.payMethod == Installments && DownPayment(sale) > 0 then DownPayment(sale) else 0;
    var base := Payment(sale.id, sale.customer, sale.total - down, sale.payMethod, SaleRow);
    var rows := (if sale.total - down > 0 then [base] else [])
                + (if down > 0 then [Payment(sale.id, sale.customer, down, Cash, DownPaymentRow)] else []);
    db' := db.(
      sales := db.sales + [sale],
      products := map p | p in db.products ::
          db.products[p].(stock := db.products[p].stock - Sum(cart.lines, Ordered(p))),
      movements := db.movements + SaleMovements(cart.lines, sale.id),
      customers := CustomersAfterSale(db.customers, sale),
      payments := db.payments + rows,
      shifts := ShiftsAfterSales(db.shifts, sale.total, CashTaken(sale), true));
    assert db'.payments[|db.payments|..] == rows;
  }

  const PAID_PLAN := Plan(0, Some([Installment(1, None, 100, true)]))

  lemma PaidPlanAccepted()
    ensures PlanAccepted(Invoice(Cart(Installments, Some(PAID_PLAN), 0), TILL))
    ensures Sum(Schedule(Cart(Installments, Some(PAID_PLAN), 0)), EntryAmount(true)) == 100
  {
    hide Sum, MulQty, Percentage, Div;
    var sale := Invoice(Cart(Installments, Some(PAID_PLAN), 0), TILL);
    CartTotals(Installments, Some(PAID_PLAN), 0);
    var entry := Installment(1, None, 100, true);
    assert Schedule(sale) == [entry] && Schedule(Cart(Installments, Some(PAID_PLAN), 0)) == [entry];
    SumOne(entry, ScheduledAmount());
    SumOne(entry, EntryAmount(true));
  }

  /** Sold with its only installment already marked paid: the debt rises by 100, and the invoice owes nothing. */
  lemma PaidOnArrival() returns (db: Db, cart: Sale, db': Db)
    ensures DbOk(db) && Sold(db, cart, TILL, db') && C in db.customers && C in db'.customers
    ensures InstallmentGap(db, C) == 0 && InstallmentGap(db', C) != 0
  {
    hide DbOk, InstallmentGap, CanSell, Invoice, SaleRows, CustomersAfterSale, StockTaken, PlanAccepted;
    db, cart := OpeningDay(), Cart(Installments, Some(PAID_PLAN), 0);
    OpeningDayOk();
    PaidPlanAccepted();
    CartSells(Installments, Some(PAID_PLAN), 0);
    MethodKept(cart);
    db' := AfterSale(db, cart, TILL);
    SaleLaws.InstallmentsKeptIff(db, cart, TILL, db', C);
  }

  lemma MethodKept(cart: Sale)
    ensures Invoice(cart, TILL).payMethod == cart.payMethod
  {
  }

  /** Sold with two units marked returned where one was bought: the database is no longer well formed. */
  lemma ReturnedOnArrival() returns (db: Db, cart: Sale, db': Db)
    ensures DbOk(db) && Sold(db, cart, TILL, db') && !DbOk(db')
  {
    hide DbOk, CanSell, Invoice, SaleRows, CustomersAfterSale, StockTaken, PlanAccepted;
    db, cart := OpeningDay(), Cart(Cash, None, 2000);
    OpeningDayOk();
    NoPlanAccepted();
    CartSells(Cash, None, 2000);
    MethodKept(cart);
    db' := AfterSale(db, cart, TILL);
    SaleKeepsDbIff(db, cart, TILL, db');
    assert cart.lines[0].returned > cart.lines[0].qty;
  }

  lemma NoPlanAccepted()
    ensures PlanAccepted(Invoice(Cart(Cash, None, 2000), TILL))
  {
  }

  // ----- an order received in pieces -----

  const O := Id("order")

  /** Ten units on order, and then `received` of them there. */
  function TenUnits(received: Milli, status: OrderStatus): Order
  {
    Order(O, Id("supplier"), status, 1000, 0, [OrderLine(P, 10000, received, 100, 1000)])
  }

  function Ordered10(): Db { OpeningDay().(orders := [TenUnits(0, OrderPending)]) }

  /** Four and six of them in one receipt. */
  function FourAndSix(): seq<Receipt> { [Receipt(P, 4000), Receipt(P, 6000)] }

  lemma AllTenArrive()
    ensures Sum(FourAndSix(), Delivered(P)) == 10000
    ensures LinesReceived(TenUnits(0, OrderPending).lines, FourAndSix(), TenUnits(10000, OrderPartial).lines)
    ensures LeftShort(TenUnits(0, OrderPending).lines, FourAndSix())
  {
    var lines := TenUnits(0, OrderPending).lines;
    var rs := FourAndSix();
    assert rs == [rs[0]] + [rs[1]];
    SumOne(rs[0], Delivered(P));
    SumAppend([rs[0]], rs[1], Delivered(P));
    assert ReceivingLine(lines, P) == Some(0);
    assert rs[..1] == [rs[0]];
    assert StillShort(lines, rs[..1], P);
    assert rs[..1][..0] == [];
  }

  lemma TenOrderedOk()
    ensures DbOk(Ordered10()) && FindOrder(Ordered10().orders, O) == Some(0)
  {
    hide StoredSaleOk, SaleExists;
    var db := Ordered10();
    assert FindOrder(db.orders[..0], O) == None;
    assert db.orders[0].lines[0].qty > 0;
  }

  lemma TenStocked()
    ensures Stocked(StockroomOf(Ordered10()), TenUnits(0, OrderPending).lines, TenUnits(10000, OrderPartial).lines, O,
                    Stockroom(map[P := Product(100, 0, 15000)],
                              [Movement(P, Restock, 4000, O), Movement(P, Restock, 6000, O)]))
  {
    var ms := [Movement(P, Restock, 4000, O), Movement(P, Restock, 6000, O)];
    var lines, lines' := TenUnits(0, OrderPending).lines, TenUnits(10000, OrderPartial).lines;
    assert ms[0..] == ms && ms == [ms[0]] + [ms[1]];
    forall p ensures Sum(ms, StockIn(p)) == Arrived(lines, lines', p) {
      SumOne(ms[0], StockIn(p));
      SumAppend([ms[0]], ms[1], StockIn(p));
      assert ReceivingLine(lines, p) == if p == P then Some(0)
             else None by { assert ReceivingLine(lines[..0], p) == None; }
    }
  }

  /** All ten are there, the order says partial, and it can still be cancelled. */
  lemma CompleteButPartial() returns (db: Db, db': Db)
    ensures DbOk(db) && Received(db, O, FourAndSix(), db')
    ensures |db'.orders| == 1 && Full(db'.orders[0].lines) && db'.orders[0].status == OrderPartial
    ensures CanCancel(db', O)
  {
    hide DbOk, LinesReceived, Stocked, LeftShort;
    db := Ordered10();
    TenOrderedOk();
    AllTenArrive();
    TenStocked();
    var o' := TenUnits(10000, OrderPartial);
    db' := db.(orders := [o'], products := map[P := Product(100, 0, 15000)],
               movements := [Movement(P, Restock, 4000, O), Movement(P, Restock, 6000, O)]);
    assert Begun(o'.lines) by { assert o'.lines[0].received > 0; }
    assert db'.orders == db.orders[0 := o'];
    assert FindOrder(db'.orders[..0], O) == None;
  }
}
