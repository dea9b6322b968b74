/** A customer's purchases, debts and points over every run of the ledger. Each law says exactly which steps break
    it. */
module CustomerLaws {
  import opened Money
  import opened Domain
  import opened Sums
  import opened Refunds
  import opened SplitLegs
  import opened Points
  import opened Store
  import opened Books
  import opened SaleSteps
  import opened SellingSteps
  import opened PartialReturnSteps
  import opened FullReturnSteps
  import opened PaymentSteps
  import opened FinanceSteps
  import opened CustomerSteps
  import opened Ledger
  import opened PartialReturnLaws
  import SaleLaws
  import FullReturnLaws

  lemma BackOfficeGaps(db: Db, op: Op, db': Db, c: Id)
    requires Does(db, op, db') && BackOffice(op) && c in db.customers
    ensures c in db'.customers
    ensures PurchasesGap(db', c) == PurchasesGap(db, c) && InstallmentGap(db', c) == InstallmentGap(db, c)
              && DebtGap(db', c) == DebtGap(db, c)
    ensures PointsGap(db', c) == PointsGap(db, c)
  {
    hide Sum, Does;
    BackOfficeFrame(db, op, db');
  }

  lemma RecordPurchases(db: Db, q: PaymentRequest, db': Db, c: Id)
    requires Recorded(db, q, db') && c in db.customers
    ensures c in db'.customers && PurchasesGap(db', c) == PurchasesGap(db, c)
              && InstallmentGap(db', c) == InstallmentGap(db, c)
    ensures PointsGap(db', c) == PointsGap(db, c)
  {
    hide Sum;
  }

  lemma CollectPurchases(db: Db, q: Collection, db': Db, c: Id)
    requires Collects(db, q, db') && c in db.customers
    ensures c in db'.customers && PurchasesGap(db', c) == PurchasesGap(db, c) && DebtGap(db', c) == DebtGap(db, c)
    ensures PointsGap(db', c) == PointsGap(db, c)
  {
    hide Sum;
    CollectSalesSum(db, q, db', LiveTotal(c));
    CollectSalesSum(db, q, db', LiveCredit(c));
    CollectSalesSum(db, q, db', LivePoints(c));
    SumAppend(db.payments, db'.payments[|db.payments|], Settles(c));
  }

  lemma {:induction false} CustomerStays(dbs: seq<Db>, ops: seq<Op>, j: nat, k: nat, c: Id)
    requires Run(dbs, ops) && j <= k <= |ops| && c in dbs[j].customers
    ensures forall m :: j <= m <= k ==> c in dbs[m].customers
    decreases k
  {
    hide Step, Fresh, Run;
    RunLength(dbs, ops);
    if k > j {
      StepOf(dbs, ops, k - 1);
      CustomerStays(dbs, ops, j, k - 1, c);
      CustomersStay(dbs[k - 1], ops[k - 1], dbs[k], c);
    }
  }

  // ----- purchases -----

  ghost predicate PurchasesSafe(db: Db, op: Op, db': Db, c: Id)
    requires c in db.customers
  {
    db' != db && op.PartReturn? && CanReturnPart(db, op.id, op.product, op.qty) ==>
      PurchasesUnharmed(db, op.id, op.product, op.qty, c)
  }

  lemma StepPurchasesIff(db: Db, op: Op, db': Db, c: Id)
    requires DbOk(db) && Step(db, op, db') && c in db.customers && PurchasesGap(db, c) >= 0
    ensures c in db'.customers
    ensures PurchasesGap(db', c) == PurchasesGap(db, c) <==> PurchasesSafe(db, op, db', c)
  {
    hide DbOk, Sold, FullyReturned, Recorded, Collects, Opened, Closed, Received, CanPay, CanCancel, PurchasesGap,
         PurchasesUnharmed, ReturnPart, GoodsBack, CustomersAfterPart, PartialRows;
    if db' != db {
      match op
      case Sell(cart, till) => SaleLaws.PurchasesKept(db, cart, till, db', c);
      case PartReturn(id, product, qty) => PurchasesKeptIff(db, id, product, qty, db', c);
      case FullReturn(id, legs) => FullReturnLaws.PurchasesKept(db, id, legs, db', c);
      case Pay(q) => RecordPurchases(db, q, db', c);
      case Collect(q) => CollectPurchases(db, q, db', c);
      case Enrol(id, row) => EnrolKeepsOthers(db, id, row, db', c);
      case _ => BackOfficeGaps(db, op, db', c);
    }
  }

  /** Over any run, from any moment at which the customer is on file, their purchases move exactly with the totals of
      their live invoices, at every moment, exactly when every step was safe. So returning a live invoice completely, in
      whatever pieces, takes off exactly what it added. */
  lemma {:induction false} PurchasesFollowInvoices(dbs: seq<Db>, ops: seq<Op>, j: nat, k: nat, c: Id)
    requires Run(dbs, ops) && DbOk(dbs[0]) && j <= k <= |ops| && c in dbs[j].customers && PurchasesGap(dbs[j], c) >= 0
    ensures forall m :: j <= m <= k ==> c in dbs[m].customers
    ensures (forall m :: j <= m <= k ==> PurchasesGap(dbs[m], c) == PurchasesGap(dbs[j], c))
            <==> (forall m :: j <= m < k ==> PurchasesSafe(dbs[m], ops[m], dbs[m + 1], c))
    decreases k
  {
    hide Step, Fresh, Run, PurchasesSafe, PurchasesGap;
    RunLength(dbs, ops);
    CustomerStays(dbs, ops, j, k, c);
    if k > j {
      StepOf(dbs, ops, k - 1);
      PurchasesFollowInvoices(dbs, ops, j, k - 1, c);
      RunKeepsDb(dbs, ops, k - 1);
      if PurchasesGap(dbs[k - 1], c) == PurchasesGap(dbs[j], c) { StepPurchasesIff(dbs[k - 1], ops[k - 1], dbs[k], c); }
    }
  }

  // ----- installment debt -----

  /** A sale's schedule arrives with nothing marked paid, a partial return takes no more than the invoice owed, and a
      collected invoice was sold by installments. */
  ghost predicate InstallmentsSafe(db: Db, op: Op, db': Db, c: Id)
    requires c in db.customers
  {
    db' != db ==>
      match op
      case Sell(cart, _) => cart.payMethod == Installments && cart.customer == c ==>
          Sum(Schedule(cart), EntryAmount(true)) == 0
      case PartReturn(id, product, qty) => CanReturnPart(db, id, product, qty) ==>
          InstallmentsUnharmed(db, id, product, qty, c)
      case Collect(q) => FindSale(db.sales, q.sale).Some? ==> CollectUnharmed(db, q, c)
      case _ => true
  }

  lemma StepInstallmentsIff(db: Db, op: Op, db': Db, c: Id)
    requires DbOk(db) && Step(db, op, db') && c in db.customers && InstallmentGap(db, c) >= 0
    ensures c in db'.customers
    ensures InstallmentGap(db', c) == InstallmentGap(db, c) <==> InstallmentsSafe(db, op, db', c)
  {
    hide DbOk, Sold, FullyReturned, Recorded, Opened, Closed, Received, CanPay, CanCancel, InstallmentGap, Schedule,
         InstallmentsUnharmed, ReturnPart, GoodsBack, CustomersAfterPart, PartialRows, CollectUnharmed;
    if db' != db {
      match op
      case Sell(cart, till) => SaleLaws.InstallmentsKeptIff(db, cart, till, db', c);
      case PartReturn(id, product, qty) => InstallmentsKeptIff(db, id, product, qty, db', c);
      case FullReturn(id, legs) => FullReturnLaws.InstallmentsKept(db, id, legs, db', c);
      case Pay(q) => RecordPurchases(db, q, db', c);
      case Collect(q) => CollectInstallmentsKeptIff(db, q, db', c);
      case Enrol(id, row) => EnrolKeepsOthers(db, id, row, db', c);
      case _ => BackOfficeGaps(db, op, db', c);
    }
  }

  /** Over any run, from any moment at which the customer is on file, their installment debt moves exactly with what
      their live installment invoices owe, at every moment, exactly when every step was safe; and then the clamp at zero
      never takes a cent. */
  lemma {:induction false} InstallmentDebtFollowsSchedules(dbs: seq<Db>, ops: seq<Op>, j: nat, k: nat, c: Id)
    requires Run(dbs, ops) && DbOk(dbs[0]) && j <= k <= |ops| && c in dbs[j].customers && InstallmentGap(dbs[j], c) >= 0
    ensures forall m :: j <= m <= k ==> c in dbs[m].customers
    ensures (forall m :: j <= m <= k ==> InstallmentGap(dbs[m], c) == InstallmentGap(dbs[j], c))
            <==> (forall m :: j <= m < k ==> InstallmentsSafe(dbs[m], ops[m], dbs[m + 1], c))
    decreases k
  {
    hide Step, Fresh, Run, InstallmentsSafe, InstallmentGap;
    RunLength(dbs, ops);
    CustomerStays(dbs, ops, j, k, c);
    if k > j {
      StepOf(dbs, ops, k - 1);
      InstallmentDebtFollowsSchedules(dbs, ops, j, k - 1, c);
      RunKeepsDb(dbs, ops, k - 1);
      if InstallmentGap(dbs[k - 1], c) == InstallmentGap(dbs[j], c)
      { StepInstallmentsIff(dbs[k - 1], ops[k - 1], dbs[k], c); }
    }
  }

  // ----- credit debt -----

  /** A payment does not exceed the debt, and a partial return takes off the debt what the invoice's credit loses. */
  ghost predicate DebtSafe(db: Db, op: Op, db': Db, c: Id)
    requires c in db.customers
  {
    db' != db ==>
      match op
      case Pay(q) => q.customer == c ==> q.amount <= db.customers[c].debt
      case PartReturn(id, product, qty) =>
        CanReturnPart(db, id, product, qty) && SaleAt(db, id).total != 0 ==> DebtUnharmed(db, id, product, qty, c)
      case _ => true
  }

  lemma StepDebtIff(db: Db, op: Op, db': Db, c: Id)
    requires DbOk(db) && Step(db, op, db') && c in db.customers
    ensures c in db'.customers
    ensures DebtGap(db', c) == DebtGap(db, c) <==> DebtSafe(db, op, db', c)
  {
    hide DbOk, Sold, FullyReturned, Recorded, Collects, Opened, Closed, Received, CanPay, CanCancel, DebtGap,
         DebtUnharmed, ReturnPart, GoodsBack, CustomersAfterPart, PartialRows;
    if db' != db {
      match op
      case Sell(cart, till) => SaleLaws.DebtKept(db, cart, till, db', c);
      case PartReturn(id, product, qty) => DebtKeptIff(db, id, product, qty, db', c);
      case FullReturn(id, legs) => FullReturnLaws.DebtKept(db, id, legs, db', c);
      case Pay(q) =>
        NoCustomerIsNobody(db);
        RecordDebtKeptIff(db, q, db', c);
      case Collect(q) => CollectPurchases(db, q, db', c);
      case Enrol(id, row) => EnrolKeepsOthers(db, id, row, db', c);
      case _ => BackOfficeGaps(db, op, db', c);
    }
  }

  lemma NoCustomerIsNobody(db: Db)
    requires DbOk(db)
    ensures NoId !in db.customers
  {
  }

  /** Over any run, from any moment at which the customer is on file, their debt is never negative, and moves exactly
      with what their live invoices have on credit less what was settled, at every moment, exactly when every step was
      safe: then the clamp at zero never takes a cent. */
  lemma {:induction false} DebtFollowsCredit(dbs: seq<Db>, ops: seq<Op>, j: nat, k: nat, c: Id)
    requires Run(dbs, ops) && DbOk(dbs[0]) && j <= k <= |ops| && c in dbs[j].customers
    ensures forall m :: j <= m <= k ==> c in dbs[m].customers
    ensures dbs[k].customers[c].debt >= 0
    ensures (forall m :: j <= m <= k ==> DebtGap(dbs[m], c) == DebtGap(dbs[j], c))
            <==> (forall m :: j <= m < k ==> DebtSafe(dbs[m], ops[m], dbs[m + 1], c))
    decreases k
  {
    hide Step, Fresh, Run, DebtSafe, DebtGap;
    RunLength(dbs, ops);
    CustomerStays(dbs, ops, j, k, c);
    RunKeepsDb(dbs, ops, k);
    if k > j {
      StepOf(dbs, ops, k - 1);
      DebtFollowsCredit(dbs, ops, j, k - 1, c);
      RunKeepsDb(dbs, ops, k - 1);
      StepDebtIff(dbs[k - 1], ops[k - 1], dbs[k], c);
    }
  }

  // ----- points -----

  /** By how much a step can put points out of step: one for a partial return of a live invoice; all it stands for, and
      one more, when it had been returned already. */
  ghost function PointsRisk(db: Db, op: Op, db': Db, c: Id): (risk: int)
  {
    if db' != db && op.PartReturn? && CanReturnPart(db, op.id, op.product, op.qty) && SaleAt(db, op.id).customer == c
    then 1 + if Live(SaleAt(db, op.id)) then 0 else PointsFor(SaleAt(db, op.id).total)
    else 0
  }

  ghost function PointsRisks(dbs: seq<Db>, ops: seq<Op>, j: nat, k: nat, c: Id): int
    requires j <= k <= |ops| < |dbs|
    decreases k
  {
    if k == j then 0 else PointsRisks(dbs, ops, j, k - 1, c) + PointsRisk(dbs[k - 1], ops[k - 1], dbs[k], c)
  }

  ghost predicate PointsWithin(db: Db, c: Id, n: int)
  {
    c in db.customers && -n <= PointsGap(db, c) <= n
  }

  lemma PartPointsWithin(db: Db, op: Op, db': Db, c: Id, n: nat)
    requires DbOk(db) && Does(db, op, db') && op.PartReturn? && PointsWithin(db, c, n)
    ensures PointsWithin(db', c, n + PointsRisk(db, op, db', c))
  {
    hide Sum, PointsFor, ReturnPart, GoodsBack, CustomersAfterPart, PartialRows, ReferencesOk, OrdersOk, ShiftsOk,
         SaleOk, SplitOk, PlanOk, PaidOk, ScheduleOk, PartialCash, PartialOverpaid, ShiftsAfterRefunds, SalesTableOk;
    var s := SaleAt(db, op.id);
    var amount := RefundOf(db, op.id, op.product, op.qty);
    PointsMove(db, op.id, op.product, op.qty, db', c);
    if s.customer == c {
      SaleStored(db, FindSale(db.sales, op.id).value);
      PartialReturnStep(s, op.product, op.qty);
      CarryIs(s.total, amount);
      PointsNonNegative(s.total);
      PointsNonNegative(s.total - amount);
      PointsNonNegative(amount);
      if Live(s) { LivePointsBound(db, FindSale(db.sales, op.id).value, c); }
      PartChanges(db, op, db');
    }
  }

  lemma PartChanges(db: Db, op: Op, db': Db)
    requires DbOk(db) && Does(db, op, db') && op.PartReturn?
    ensures db' != db
  {
    hide ReturnPart, GoodsBack, CustomersAfterPart, PartialRows, ReferencesOk, OrdersOk, ShiftsOk;
    var i := FindSale(db.sales, op.id).value;
    SaleStored(db, i);
    PartialReturnStep(db.sales[i], op.product, op.qty);
    RefundPositive(db, op.id, op.product, op.qty);
    assert db'.sales[i].total != db.sales[i].total;
  }

  lemma PointsNonNegative(amount: Amount)
    requires amount >= 0
    ensures PointsFor(amount) >= 0
  {
    DivThousand(amount);
  }

  lemma LivePointsBound(db: Db, i: nat, c: Id)
    requires DbOk(db) && i < |db.sales|
    ensures LivePoints(c)(db.sales[i]) <= Sum(db.sales, LivePoints(c))
  {
    hide Div, Sum;
    forall k | 0 <= k < |db.sales| ensures 0 <= LivePoints(c)(db.sales[k]) {
      SaleStored(db, k);
      PointsNonNegative(db.sales[k].total);
    }
    SumBoundsRow(db.sales, i, LivePoints(c));
  }

  lemma ReturnPointsWithin(db: Db, op: Op, db': Db, c: Id, n: nat)
    requires DbOk(db) && Does(db, op, db') && op.FullReturn? && PointsWithin(db, c, n)
    ensures PointsWithin(db', c, n)
  {
    hide Sum, Div, AreScaledLegs, Restocked, ReturnMovements, CustomersAfterReturn, ReturnRows, ReturnValue, ReturnCash,
         ReferencesOk, OrdersOk, ShiftsOk;
    var s := SaleAt(db, op.id);
    FullReturnLaws.PointsMove(db, op.id, op.legs, db', c);
    if s.customer == c { LivePointsBound(db, FindSale(db.sales, op.id).value, c); }
  }

  lemma StepPoints(db: Db, op: Op, db': Db, c: Id, n: nat)
    requires DbOk(db) && Step(db, op, db') && PointsWithin(db, c, n)
    ensures PointsWithin(db', c, n + PointsRisk(db, op, db', c)) && PointsRisk(db, op, db', c) >= 0
  {
    hide DbOk, Sold, PartlyReturned, FullyReturned, Recorded, Collects, Opened, Closed, Received, CanPay, CanCancel,
         PointsGap;
    RiskNonNegative(db, op, db', c);
    if db' != db {
      match op
      case Sell(cart, till) => SaleLaws.PointsKept(db, cart, till, db', c);
      case PartReturn(_, _, _) => PartPointsWithin(db, op, db', c, n);
      case FullReturn(_, _) => ReturnPointsWithin(db, op, db', c, n);
      case Pay(q) => RecordPurchases(db, q, db', c);
      case Collect(q) => CollectPurchases(db, q, db', c);
      case Enrol(id, row) => EnrolKeepsOthers(db, id, row, db', c);
      case _ => BackOfficeGaps(db, op, db', c);
    }
  }

  lemma RiskNonNegative(db: Db, op: Op, db': Db, c: Id)
    requires DbOk(db)
    ensures PointsRisk(db, op, db', c) >= 0
  {
    hide ReturnPart, Div, ReferencesOk, OrdersOk, ShiftsOk;
    if op.PartReturn? && CanReturnPart(db, op.id, op.product, op.qty) {
      SaleStored(db, FindSale(db.sales, op.id).value);
      PointsNonNegative(SaleAt(db, op.id).total);
    }
  }

  /** Over any run, from any moment at which the customer is on file, their points stay within the summed risk of what
      their live invoices stand for: within one point for each partial return, as long as only live invoices are partly
      returned. */
  lemma {:induction false} PointsFollowInvoices(dbs: seq<Db>, ops: seq<Op>, j: nat, k: nat, c: Id, n: nat)
    requires Run(dbs, ops) && DbOk(dbs[0]) && j <= k <= |ops| && PointsWithin(dbs[j], c, n)
    ensures PointsRisks(dbs, ops, j, k, c) >= 0 && PointsWithin(dbs[k], c, n + PointsRisks(dbs, ops, j, k, c))
    decreases k
  {
    hide Step, Fresh, Run, PointsRisk, PointsWithin;
    RunLength(dbs, ops);
    if k > j {
      StepOf(dbs, ops, k - 1);
      PointsFollowInvoices(dbs, ops, j, k - 1, c, n);
      RunKeepsDb(dbs, ops, k - 1);
      StepPoints(dbs[k - 1], ops[k - 1], dbs[k], c, n + PointsRisks(dbs, ops, j, k - 1, c));
    }
  }
}
