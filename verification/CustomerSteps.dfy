/** What putting a customer on file does to the database, and what it keeps. */
module CustomerSteps {
  import opened Domain
  import opened Sums
  import opened Refunds
  import opened Store
  import opened Books
  import opened SaleSteps

  /** Only the debt must be zero; the other counters are stored as sent. */
  ghost predicate Enrolled(db: Db, id: Id, row: Customer, db': Db)
  {
    id != NoId && id !in db.customers && row.debt == 0 && db' == db.(customers := db.customers[id := row])
  }

  /** The database stays well formed exactly when none of the counters is sent as negative. */
  lemma EnrolKeepsDbIff(db: Db, id: Id, row: Customer, db': Db)
    requires DbOk(db) && Enrolled(db, id, row, db')
    ensures DbOk(db') <==> CustomerOk(row)
  {
    hide SaleOk, SplitOk, PlanOk, PaidOk, ScheduleOk, OrderOk;
    assert db'.customers[id] == row;
    forall i | 0 <= i < |db.sales| ensures StoredSaleOk(db', db'.sales[i]) { SaleStored(db, i); }
    forall k | 0 <= k < |db.payments| ensures db.payments[k].sale == NoId || SaleExists(db', db.payments[k].sale) {
      if db.payments[k].sale != NoId { SameSales(db, db', db.payments[k].sale); }
    }
    forall k | 0 <= k < |db.movements| ensures db.movements[k].kind == Restock || SaleExists(db', db.movements[k].ref) {
      if db.movements[k].kind != Restock { SameSales(db, db', db.movements[k].ref); }
    }
  }

  /** No invoice or row names the newcomer, so each law starts off by exactly what was sent; debt starts in
      agreement. */
  lemma EnrolStarts(db: Db, id: Id, row: Customer, db': Db)
    requires DbOk(db) && Enrolled(db, id, row, db')
    ensures id in db'.customers
    ensures PurchasesGap(db', id) == row.totalPurchases && InstallmentGap(db', id) == row.installmentDebt
    ensures PointsGap(db', id) == row.points && DebtGap(db', id) == 0
  {
    hide SaleOk, SplitOk, PlanOk, PaidOk, ScheduleOk, OrderOk, ShiftsOk, Owes, OnCredit;
    forall i | 0 <= i < |db.sales| ensures db.sales[i].customer != id { SaleStored(db, i); }
    SumZero(db.sales, LiveTotal(id));
    SumZero(db.sales, LiveInstallments(id));
    SumZero(db.sales, LivePoints(id));
    SumZero(db.sales, LiveCredit(id));
    SumZero(db.payments, Settles(id));
  }

  /** Nobody else's law moves. */
  lemma EnrolKeepsOthers(db: Db, id: Id, row: Customer, db': Db, c: Id)
    requires Enrolled(db, id, row, db') && c in db.customers
    ensures c in db'.customers
    ensures PurchasesGap(db', c) == PurchasesGap(db, c) && InstallmentGap(db', c) == InstallmentGap(db, c)
    ensures PointsGap(db', c) == PointsGap(db, c) && DebtGap(db', c) == DebtGap(db, c)
  {
    hide Sum;
  }
}
