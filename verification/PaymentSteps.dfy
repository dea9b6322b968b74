/** What recording a payment and collecting an installment do to the database, and the laws they keep. */
module PaymentSteps {
  import opened Money
  import opened Domain
  import opened Sums
  import opened Refunds
  import opened Store
  import opened Books
  import opened SaleSteps
  import opened SellingSteps
  import opened PartialReturnLaws

  // ----- a payment against a customer's debt -----

  datatype PaymentRequest = PaymentRequest(sale: Id, customer: Id, amount: Amount, payMethod: PayMethod, forced: bool,
      requireShift: bool)

  ghost predicate CanRecord(db: Db, q: PaymentRequest)
  {
    && q.amount > 0
    && (q.customer != NoId ==> q.customer in db.customers && (q.forced || q.amount <= db.customers[q.customer].debt))
    && (q.sale != NoId ==>
         && FindSale(db.sales, q.sale).Some?
         && SaleAt(db, q.sale).status != Returned && SaleAt(db, q.sale).status != PartiallyReturned
         && SaleAt(db, q.sale).payMethod != Installments)
    && (q.payMethod == Cash && q.requireShift ==> ActiveShift(db.shifts).Some?)
  }

  ghost predicate Recorded(db: Db, q: PaymentRequest, db': Db)
  {
    && CanRecord(db, q)
    && db' == db.(
         payments := db.payments + [Payment(q.sale, q.customer, q.amount, q.payMethod, UserRow)],
         customers := if q.customer in db.customers
                      then db.customers[q.customer :=
                          db.customers[q.customer].(debt := Minus(db.customers[q.customer].debt, q.amount))]
                      else db.customers,
         shifts := if q.payMethod == Cash then ShiftsAfterSales(db.shifts, 0, q.amount, false) else db.shifts)
  }

  lemma OneMorePayment(db: Db, db': Db)
    requires DbOk(db) && |db'.payments| == |db.payments| + 1 && db.payments <= db'.payments
    requires db'.movements == db.movements && |db'.sales| == |db.sales|
    requires forall k :: 0 <= k < |db.sales| ==> db'.sales[k].id == db.sales[k].id
    requires db'.payments[|db.payments|].sale == NoId || SaleExists(db, db'.payments[|db.payments|].sale)
    ensures ReferencesOk(db')
  {
    hide SalesTableOk;
    forall k | 0 <= k < |db'.payments| ensures db'.payments[k].sale == NoId || SaleExists(db', db'.payments[k].sale) {
      assert k < |db.payments| ==> db'.payments[k] == db.payments[k];
      if db'.payments[k].sale != NoId { SameSales(db, db', db'.payments[k].sale); }
    }
    forall k | 0 <= k < |db'.movements|
      ensures db'.movements[k].kind == Restock || SaleExists(db', db'.movements[k].ref) {
      if db.movements[k].kind != Restock { SameSales(db, db', db.movements[k].ref); }
    }
  }

  lemma ShiftsAfterPayment(db: Db, db': Db, amount: Amount)
    requires ShiftsOk(db) && |db.payments| <= |db'.payments| && amount >= 0
    requires db'.shifts == db.shifts || db'.shifts == ShiftsAfterSales(db.shifts, 0, amount, false)
    ensures ShiftsOk(db')
  {
    ShiftsCounted(db, db');
  }

  lemma RecordKeepsDb(db: Db, q: PaymentRequest, db': Db)
    requires DbOk(db) && Recorded(db, q, db')
    ensures DbOk(db')
  {
    hide StoredSaleOk, ReferencesOk, ShiftsOk;
    if q.sale != NoId { assert SaleExists(db, q.sale); }
    OneMorePayment(db, db');
    assert db'.payments[|db.payments|..] == [db'.payments[|db.payments|]];
    PayersGrow(db, db', q.customer);
    ShiftsAfterPayment(db, db', q.amount);
    forall i | 0 <= i < |db.sales| ensures StoredSaleOk(db', db'.sales[i]) { SameCustomers(db, db', db.sales[i]); }
  }

  lemma SameCustomers(db: Db, db': Db, sale: Sale)
    requires StoredSaleOk(db, sale) && db.customers.Keys <= db'.customers.Keys
    ensures StoredSaleOk(db', sale)
  {
    hide SaleOk, SplitOk, PlanOk, PaidOk;
  }

  /** A payment keeps debt in agreement with what was charged less what was settled exactly when it does not exceed the
      debt. Unforced payments never do; a forced one loses the excess to the clamp. */
  lemma RecordDebtKeptIff(db: Db, q: PaymentRequest, db': Db, c: Id)
    requires Recorded(db, q, db') && c in db.customers && NoId !in db.customers
    ensures c in db'.customers
    ensures DebtGap(db', c) == DebtGap(db, c) <==> (q.customer == c ==> q.amount <= db.customers[c].debt)
    ensures !q.forced ==> DebtGap(db', c) == DebtGap(db, c)
  {
    SumAppend(db.payments, Payment(q.sale, q.customer, q.amount, q.payMethod, UserRow), Settles(c));
  }

  lemma RecordDrawerKept(db: Db, q: PaymentRequest, db': Db)
    requires DbOk(db) && Recorded(db, q, db')
    ensures DbOk(db') && DrawerGap(db') == DrawerGap(db)
  {
    hide DbOk, Sum;
    RecordKeepsDb(db, q, db');
    var row := Payment(q.sale, q.customer, q.amount, q.payMethod, UserRow);
    assert db'.payments[|db.payments|..] == [row];
    SumOne(row, CashIn());
    DrawerAfterPayment(db, db', q.amount, q.payMethod == Cash);
  }

  lemma DrawerAfterPayment(db: Db, db': Db, amount: Amount, isCash: bool)
    requires DbOk(db) && DbOk(db')
    requires db.payments <= db'.payments && Sum(db'.payments[|db.payments|..], CashIn()) == if isCash then amount else 0
    requires db'.shifts == if isCash then ShiftsAfterSales(db.shifts, 0, amount, false) else db.shifts
    ensures DrawerGap(db') == DrawerGap(db)
  {
    hide Sum;
    if isCash {
      DrawerAfterSales(db, db', 0, amount, false);
    } else {
      match ActiveShift(db.shifts)
      case None =>
      case Some(k) => CashSince(db, db', k);
    }
  }

  // ----- an installment -----

  datatype Collection = Collection(sale: Id, index: int, amount: Amount, payMethod: PayMethod, requireShift: bool)

  /** The amount offered may also be off by a factor of a hundred either way; the scheduled amount is what is taken. */
  predicate AmountAccepted(amount: Amount, required: Amount)
  {
    amount == required || amount * 100 == required || amount == required * 100
  }

  ghost predicate CanCollect(db: Db, q: Collection)
  {
    && q.amount > 0
    && FindSale(db.sales, q.sale).Some?
    && var sale := SaleAt(db, q.sale);
    && sale.status != Returned && sale.status != PartiallyReturned
    && sale.plan.Some?
    && 0 <= q.index < |Schedule(sale)|
    && !Schedule(sale)[q.index].paid
    && AmountAccepted(q.amount, Schedule(sale)[q.index].amount)
    && (q.payMethod == Cash && q.requireShift ==> ActiveShift(db.shifts).Some?)
  }

  predicate AllPaid(schedule: seq<Installment>)
  {
    forall k :: 0 <= k < |schedule| ==> schedule[k].paid
  }

  /** The invoice once entry `index` of its schedule is paid. */
  function WithPaid(sale: Sale, index: nat): Sale
    requires sale.plan.Some? && sale.plan.value.schedule.Some? && index < |sale.plan.value.schedule.value|
  {
    var schedule := sale.plan.value.schedule.value;
    var paid := schedule[index := schedule[index].(paid := true)];
    sale.(plan := Some(sale.plan.value.(schedule := Some(paid))), status := if AllPaid(paid) then Paid else sale.status)
  }

  ghost predicate Collects(db: Db, q: Collection, db': Db)
  {
    CanCollect(db, q) &&
    var i := FindSale(db.sales, q.sale).value;
    var sale := db.sales[i];
    var due := Schedule(sale)[q.index].amount;
    db' == db.(
      sales := db.sales[i := WithPaid(sale, q.index)],
      payments := db.payments + [Payment(q.sale, sale.customer, due, q.payMethod, InstallmentRow(q.index))],
      customers := if sale.customer in db.customers
                   then db.customers[sale.customer := db.customers[sale.customer].(
                          installmentDebt := Minus(db.customers[sale.customer].installmentDebt, due))]
                   else db.customers,
      shifts := if q.payMethod == Cash then ShiftsAfterSales(db.shifts, 0, due, false) else db.shifts)
  }

  lemma WithPaidOk(sale: Sale, index: nat)
    requires sale.plan.Some? && sale.plan.value.schedule.Some? && index < |sale.plan.value.schedule.value|
    requires !sale.plan.value.schedule.value[index].paid && ScheduleExact(sale)
    requires SaleOk(sale) && SplitOk(sale) && PlanOk(sale) && PaidOk(sale)
    ensures var s := WithPaid(sale, index); SaleOk(s) && SplitOk(s) && PlanOk(s) && PaidOk(s) && ScheduleOk(s)
  {
    hide SumMap, Sum;
    var s := WithPaid(sale, index);
    PaidSum(sale, index);
    assert forall k :: 0 <= k < |Schedule(sale)| ==> Schedule(s)[k].amount == Schedule(sale)[k].amount;
  }

  lemma CollectKeepsDb(db: Db, q: Collection, db': Db)
    requires DbOk(db) && Collects(db, q, db')
    ensures DbOk(db')
  {
    hide ReferencesOk, ShiftsOk, SaleOk, SplitOk, PlanOk, PaidOk, SalesTableOk, ScheduleExact;
    var i := FindSale(db.sales, q.sale).value;
    SaleStored(db, i);
    WithPaidOk(db.sales[i], q.index);
    SaleRewritten(db, i, db'.sales[i], db');
    OneMorePayment(db, db');
    assert db'.payments[|db.payments|..] == [db'.payments[|db.payments|]];
    PayersGrow(db, db', db.sales[i].customer);
    ShiftsAfterPayment(db, db', Schedule(db.sales[i])[q.index].amount);
  }

  lemma {:induction false} SameFind(sales: seq<Sale>, sales': seq<Sale>, id: Id)
    requires |sales'| == |sales| && forall k :: 0 <= k < |sales| ==> sales'[k].id == sales[k].id
    ensures FindSale(sales', id) == FindSale(sales, id)
  {
    if sales != [] { SameFind(sales[..|sales| - 1], sales'[..|sales| - 1], id); }
  }

  /** Collecting pays one entry of the schedule and nothing else of it. The invoice then reads paid exactly when no
      entry is left unpaid - also one whose entries were paid in any other order - and otherwise what it read before. */
  lemma CollectPaysEntry(db: Db, q: Collection, db': Db)
    requires DbOk(db) && Collects(db, q, db')
    ensures FindSale(db'.sales, q.sale) == FindSale(db.sales, q.sale) && |db'.sales| == |db.sales|
    ensures forall k :: 0 <= k < |db.sales| && Some(k) != FindSale(db.sales, q.sale) ==> db'.sales[k] == db.sales[k]
    ensures var s, s' := SaleAt(db, q.sale), SaleAt(db', q.sale);
            && s' == s.(plan := s'.plan, status := s'.status)
            && |Schedule(s')| == |Schedule(s)| && DownPayment(s') == DownPayment(s)
            && (forall k :: 0 <= k < |Schedule(s)| ==>
                 Schedule(s')[k] == if k == q.index then Schedule(s)[k].(paid := true) else Schedule(s)[k])
            && (s'.status == Paid <==> forall k :: 0 <= k < |Schedule(s')| ==> Schedule(s')[k].paid)
            && (s'.status == Paid || s'.status == s.status)
  {
    hide SaleOk, SplitOk, PlanOk, ScheduleOk, ReferencesOk, ShiftsOk, OrdersOk;
    var i := FindSale(db.sales, q.sale).value;
    SaleStored(db, i);
    SameFind(db.sales, db'.sales, q.sale);
  }

  /** The row written is for what the entry says is due, whatever was offered, and that is what the invoice has less
      outstanding. */
  lemma CollectTakesDue(db: Db, q: Collection, db': Db)
    requires Collects(db, q, db')
    ensures FindSale(db'.sales, q.sale) == FindSale(db.sales, q.sale)
    ensures var rows := db'.payments[|db.payments|..];
            var s, due := SaleAt(db, q.sale), Schedule(SaleAt(db, q.sale))[q.index].amount;
            && rows == [Payment(q.sale, s.customer, due, q.payMethod, InstallmentRow(q.index))]
            && Outstanding(s) - Outstanding(SaleAt(db', q.sale)) == due > 0
            && (q.amount == due || q.amount == 100 * due || (due % 100 == 0 && q.amount == due / 100))
  {
    hide Sum, Outstanding;
    SameFind(db.sales, db'.sales, q.sale);
    PaidSum(SaleAt(db, q.sale), q.index);
  }

  lemma CollectSalesSum(db: Db, q: Collection, db': Db, f: Sale -> int)
    requires Collects(db, q, db')
    ensures Sum(db'.sales, f) == Sum(db.sales, f) - f(SaleAt(db, q.sale)) + f(WithPaid(SaleAt(db, q.sale), q.index))
  {
    hide Sum;
    var i := FindSale(db.sales, q.sale).value;
    SumUpdate(db.sales, i, db'.sales[i], f);
  }

  lemma PaidSum(sale: Sale, index: nat)
    requires sale.plan.Some? && index < |Schedule(sale)| && !Schedule(sale)[index].paid
    ensures Outstanding(WithPaid(sale, index)) == Outstanding(sale) - Schedule(sale)[index].amount
    ensures Sum(Schedule(WithPaid(sale, index)), ScheduledAmount()) == Sum(Schedule(sale), ScheduledAmount())
  {
    hide Sum;
    var entry := Schedule(sale)[index].(paid := true);
    SumUpdate(Schedule(sale), index, entry, EntryAmount(true));
    SumUpdate(Schedule(sale), index, entry, ScheduledAmount());
  }

  /** An invoice that carries a plan without being sold by installments owes nothing there, yet is collected from the
      same debt. */
  ghost predicate CollectUnharmed(db: Db, q: Collection, c: Id)
    requires FindSale(db.sales, q.sale).Some? && c in db.customers
  {
    SaleAt(db, q.sale).customer == c ==>
        SaleAt(db, q.sale).payMethod == Installments || db.customers[c].installmentDebt == 0
  }

  /** While the debt covers what the customer's invoices owe, collecting keeps it in agreement exactly when the invoice
      was sold by installments - or there is no debt to take from. */
  lemma CollectInstallmentsKeptIff(db: Db, q: Collection, db': Db, c: Id)
    requires DbOk(db) && Collects(db, q, db') && c in db.customers && InstallmentGap(db, c) >= 0
    ensures c in db'.customers
    ensures InstallmentGap(db', c) == InstallmentGap(db, c) <==> CollectUnharmed(db, q, c)
  {
    hide Sum, Outstanding, SaleOk, SplitOk, PaidOk, ReferencesOk, ShiftsOk, OrdersOk, ScheduleExact;
    var i := FindSale(db.sales, q.sale).value;
    var sale := db.sales[i];
    SaleStored(db, i);
    CollectSalesSum(db, q, db', LiveInstallments(c));
    PaidSum(sale, q.index);
    DuePositive(sale, q);
    if sale.customer == c && sale.payMethod == Installments {
      OwesWithinDebt(db, c, i);
      InvoiceTotalNonNegative(sale);
      DueWithinOutstanding(sale, q.index);
    }
  }

  lemma InvoiceTotalNonNegative(sale: Sale)
    requires SaleOk(sale)
    ensures sale.total >= 0
  {
  }

  lemma CollectDrawerKept(db: Db, q: Collection, db': Db)
    requires DbOk(db) && Collects(db, q, db')
    ensures DbOk(db') && DrawerGap(db') == DrawerGap(db)
  {
    hide DbOk, Sum;
    CollectKeepsDb(db, q, db');
    var row := db'.payments[|db.payments|];
    assert db'.payments[|db.payments|..] == [row];
    SumOne(row, CashIn());
    DrawerAfterPayment(db, db', row.amount, q.payMethod == Cash);
  }

  // ----- what an entry takes -----

  lemma DuePositive(sale: Sale, q: Collection)
    requires q.amount > 0 && 0 <= q.index < |Schedule(sale)| && AmountAccepted(q.amount, Schedule(sale)[q.index].amount)
    ensures Schedule(sale)[q.index].amount > 0
  {
  }

  lemma DueWithinOutstanding(sale: Sale, index: nat)
    requires PlanOk(sale) && ScheduleExact(sale) && sale.payMethod == Installments && sale.total >= 0
    requires sale.plan.Some? && index < |Schedule(sale)| && !Schedule(sale)[index].paid
    ensures Schedule(sale)[index].amount <= Outstanding(sale)
  {
    hide Sum, Outstanding;
    OutstandingIsUnpaid(sale);
    SumBoundsRow(Schedule(sale), index, EntryAmount(false));
  }
}
