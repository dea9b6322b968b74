/** All laws of the ledger together, from a new shop on. */
module LedgerLaws {
  import opened Money
  import opened Domain
  import opened Sums
  import opened Refunds
  import opened SplitLegs
  import opened Points
  import opened Store
  import opened Books
  import opened SaleSteps
  import opened SellingSteps
  import opened PartialReturnSteps
  import opened FullReturnSteps
  import opened PaymentSteps
  import opened FinanceSteps
  import opened CustomerSteps
  import opened Ledger
  import opened StockLaws
  import opened CustomerLaws
  import opened CashLaws
  import opened PartialReturnLaws
  import SaleLaws
  import FullReturnLaws

  /** A shop with a catalogue and customers but no business done yet. */
  ghost predicate NewShop(db: Db)
  {
    && db.sales == [] && db.payments == [] && db.movements == [] && db.shifts == [] && db.cashMovements == []
         && db.orders == []
    && (forall p :: p in db.products ==> db.products[p].stock >= 0)
    && (forall c :: c in db.customers ==> db.customers[c] == Customer(0, 0, 0, 0))
    && NoId !in db.customers
  }

  /** A new shop meets what every law asks of the start of a run. */
  lemma NewShopQualifies(db: Db, c: Id)
    requires NewShop(db)
    ensures DbOk(db) && NothingOverRestored(db) && DrawerGap(db) == 0
    ensures c in db.customers ==>
              InstallmentGap(db, c) == 0 && PurchasesGap(db, c) == 0 && DebtGap(db, c) == 0 && PointsWithin(db, c, 0)
  {
    hide Div;
  }

  /** The customer came on file, with zero counters, just before moment `j`: in the new shop, or by being enrolled
      since. */
  ghost predicate Arrives(dbs: seq<Db>, ops: seq<Op>, j: nat, c: Id)
    requires j <= |ops| < |dbs|
  {
    if j == 0 then c in dbs[0].customers
    else ops[j - 1] == Enrol(c, Customer(0, 0, 0, 0)) && dbs[j] != dbs[j - 1]
  }

  lemma ArrivesInAgreement(dbs: seq<Db>, ops: seq<Op>, j: nat, c: Id)
    requires Run(dbs, ops) && NewShop(dbs[0]) && j <= |ops| < |dbs| && Arrives(dbs, ops, j, c)
    ensures c in dbs[j].customers
    ensures InstallmentGap(dbs[j], c) == 0 && PurchasesGap(dbs[j], c) == 0 && DebtGap(dbs[j], c) == 0
    ensures PointsWithin(dbs[j], c, 0)
  {
    hide Run, NewShop, NothingOverRestored, DbOk, PurchasesGap, InstallmentGap, DebtGap, Enrolled, Fresh;
    NewShopQualifies(dbs[0], c);
    if j > 0 {
      StepOf(dbs, ops, j - 1);
      RunKeepsDb(dbs, ops, j - 1);
      EnrolStarts(dbs[j - 1], c, Customer(0, 0, 0, 0), dbs[j]);
    }
  }

  /** What a step must respect for the customer's counters to stay in agreement. */
  ghost predicate Respects(db: Db, op: Op, db': Db, c: Id)
    requires c in db.customers
  {
    PurchasesSafe(db, op, db', c) && InstallmentsSafe(db, op, db', c) && DebtSafe(db, op, db', c)
  }

  /** The customer's counters are what the rows say they are. */
  ghost predicate InAgreement(db: Db, c: Id)
  {
    && c in db.customers
    && db.customers[c].totalPurchases == Sum(db.sales, LiveTotal(c))
    && db.customers[c].installmentDebt == Sum(db.sales, LiveInstallments(c))
    && db.customers[c].debt == Sum(db.sales, LiveCredit(c)) - Sum(db.payments, Settles(c))
  }

  lemma AgreementMeans(db: Db, c: Id)
    requires c in db.customers
    ensures InAgreement(db, c) <==> PurchasesGap(db, c) == 0 && InstallmentGap(db, c) == 0 && DebtGap(db, c) == 0
  {
    hide Sum;
  }

  /** From a new shop on, over any run: all counters of every customer, on file from the start or enrolled since, are
      what the rows say, at every moment, exactly when every step respects its conditions. */
  lemma NewShopAgreesIff(dbs: seq<Db>, ops: seq<Op>, j: nat, k: nat, c: Id)
    requires Run(dbs, ops) && NewShop(dbs[0]) && j <= k <= |ops| < |dbs| && Arrives(dbs, ops, j, c)
    ensures forall m :: j <= m <= k ==> c in dbs[m].customers
    ensures (forall m :: j <= m <= k ==> InAgreement(dbs[m], c))
            <==> (forall m :: j <= m < k ==> Respects(dbs[m], ops[m], dbs[m + 1], c))
  {
    hide Run, NewShop, InAgreement, PurchasesSafe, InstallmentsSafe, DebtSafe, PurchasesGap, InstallmentGap, DebtGap,
         PointsWithin, NothingOverRestored, DbOk, Arrives;
    NewShopQualifies(dbs[0], c);
    ArrivesInAgreement(dbs, ops, j, c);
    PurchasesFollowInvoices(dbs, ops, j, k, c);
    InstallmentDebtFollowsSchedules(dbs, ops, j, k, c);
    DebtFollowsCredit(dbs, ops, j, k, c);
    forall m | j <= m <= k
      ensures InAgreement(dbs[m], c) <==>
                PurchasesGap(dbs[m], c) == 0 && InstallmentGap(dbs[m], c) == 0 && DebtGap(dbs[m], c) == 0
    {
      AgreementMeans(dbs[m], c);
    }
  }

  /** And the drawer: in every open shift cash sales are the signed cash rows since it was opened, at every moment,
      exactly when every return was covered. */
  lemma NewShopDrawerIff(dbs: seq<Db>, ops: seq<Op>, k: nat)
    requires Run(dbs, ops) && NewShop(dbs[0]) && k <= |ops| < |dbs|
    ensures (forall m :: 0 <= m <= k ==> DrawerRight(dbs[m]))
            <==> (forall m :: 0 <= m < k ==> dbs[m + 1] == dbs[m] || CashUnseen(dbs[m], ops[m]) == 0)
  {
    hide Run, NewShop, CashUnseen, DrawerGap, DrawerRight, NothingOverRestored, DbOk, ShiftsOk;
    NewShopQualifies(dbs[0], NoId);
    DrawerAgreesIff(dbs, ops, k);
    forall m | 0 <= m <= k ensures ShiftsOk(dbs[m]) && (DrawerRight(dbs[m]) <==> DrawerGap(dbs[m]) == 0) {
      DrawerMeans(dbs[m]);
    }
  }

  ghost predicate DrawerRight(db: Db)
  {
    match ActiveShift(db.shifts)
    case None => true
    case Some(i) =>
      var s := db.shifts[i];
      s.openedAt <= |db.payments| && s.cashSales == Sum(db.payments[s.openedAt..], CashIn())
  }

  lemma DrawerMeans(db: Db)
    requires ShiftsOk(db)
    ensures DrawerRight(db) <==> DrawerGap(db) == 0
  {
    hide Sum;
  }

  /** And unconditionally: every product's stock is what was there plus its movements, and a customer's points are
      within the summed risk of the partial returns of what their live invoices stand for. */
  lemma NewShopStockAndPoints(dbs: seq<Db>, ops: seq<Op>, j: nat, k: nat, p: Id, c: Id)
    requires Run(dbs, ops) && NewShop(dbs[0]) && j <= k <= |ops| < |dbs|
    requires p in dbs[k].products && Arrives(dbs, ops, j, c)
    ensures DbOk(dbs[k]) && c in dbs[k].customers && p in dbs[0].products
    ensures dbs[k].products[p].stock == dbs[0].products[p].stock + Sum(dbs[k].movements, StockIn(p)) >= 0
    ensures var n := PointsRisks(dbs, ops, j, k, c);
            -n <= dbs[k].customers[c].points - Sum(dbs[k].sales, LivePoints(c)) <= n
  {
    hide Run, Sum, NewShop, NothingOverRestored, DbOk, PointsRisks, Div, Arrives;
    NewShopQualifies(dbs[0], c);
    ArrivesInAgreement(dbs, ops, j, c);
    RunKeepsDb(dbs, ops, k);
    NothingMoved(dbs[0], p);
    StockFollowsMovements(dbs, ops, k, p);
    PointsFollowInvoices(dbs, ops, j, k, c, 0);
  }

  lemma NothingMoved(db: Db, p: Id)
    requires NewShop(db)
    ensures db.movements == [] && Sum(db.movements, StockIn(p)) == 0
  {
  }
}
