/** Payment rows and the cash drawer over every run of the ledger. */
module CashLaws {
  import opened Money
  import opened Domain
  import opened Sums
  import opened Refunds
  import opened SplitLegs
  import opened Points
  import opened Store
  import opened Books
  import opened SaleSteps
  import opened SellingSteps
  import opened PartialReturnSteps
  import opened FullReturnSteps
  import opened PaymentSteps
  import opened FinanceSteps
  import opened CustomerSteps
  import opened Ledger
  import opened StockLaws
  import opened PartialReturnLaws
  import SaleLaws
  import FullReturnLaws

  // ----- payment rows of an invoice -----

  /** A partial return is of another invoice, or this one is live. */
  ghost predicate RowsSafe(db: Db, op: Op, db': Db, j: nat)
  {
    db' != db && op.PartReturn? && j < |db.sales| && db.sales[j].id == op.id ==> Live(db.sales[j])
  }

  predicate OneRow(sale: Sale) { sale.payMethod == Cash || sale.payMethod == Card }

  lemma StepRowsIff(db: Db, op: Op, db': Db, j: nat)
    requires DbOk(db) && Step(db, op, db') && Fresh(db, op) && j < |db'.sales| && OneRow(db'.sales[j])
    ensures j >= |db.sales| ==> InvoiceGap(db', j) == 0
    ensures j < |db.sales| ==>
              OneRow(db.sales[j]) && InvoiceGap(db', j) <= InvoiceGap(db, j)
              && (InvoiceGap(db', j) == InvoiceGap(db, j) <==> RowsSafe(db, op, db', j))
  {
    hide DbOk, Sold, PartlyReturned, FullyReturned, Recorded, Collects, Opened, Closed, Received, CanPay, CanCancel,
         InvoiceGap, SentReturnsOk;
    if db' != db {
      match op
      case Sell(cart, till) =>
        SoldSales(db, op, db');
        SaleLaws.InvoiceStarts(db, cart, till, db', j);
      case PartReturn(id, product, qty) =>
        ReturnedSales(db, op, db');
        FrontDeskFrame(db, op, db');
        InvoiceKeptIff(db, id, product, qty, db', j);
      case FullReturn(id, legs) =>
        ReturnedSales(db, op, db');
        FrontDeskFrame(db, op, db');
        FullReturnLaws.InvoiceKept(db, id, legs, db', j);
      case Pay(q) =>
        PayFrame(db, op, db');
        FrontDeskFrame(db, op, db');
        RecordRows(db, q, db', j);
      case Collect(q) =>
        PayFrame(db, op, db');
        FrontDeskFrame(db, op, db');
        CollectRows(db, q, db', j);
      case Enrol(_, _) =>
        EnrolRows(db, op, db', j);
      case _ => BackOfficeRows(db, op, db', j);
    }
  }

  lemma RecordRows(db: Db, q: PaymentRequest, db': Db, j: nat)
    requires Recorded(db, q, db') && j < |db.sales|
    ensures j < |db'.sales| && InvoiceGap(db', j) == InvoiceGap(db, j)
  {
    hide Sum;
    SumAppend(db.payments, db'.payments[|db.payments|], InvoiceRow(db.sales[j].id));
  }

  lemma CollectRows(db: Db, q: Collection, db': Db, j: nat)
    requires Collects(db, q, db') && j < |db.sales|
    ensures j < |db'.sales| && InvoiceGap(db', j) == InvoiceGap(db, j)
  {
    hide Sum;
    SumAppend(db.payments, db'.payments[|db.payments|], InvoiceRow(db.sales[j].id));
  }

  lemma BackOfficeRows(db: Db, op: Op, db': Db, j: nat)
    requires Does(db, op, db') && BackOffice(op) && j < |db'.sales|
    ensures j < |db.sales| && db'.sales[j] == db.sales[j] && InvoiceGap(db', j) == InvoiceGap(db, j)
  {
    hide Sum, Does;
    BackOfficeFrame(db, op, db');
  }

  /** Over any run the rows of a cash or card invoice - payments later linked to it aside - never exceed its remaining
      total, and equal it, or nothing once it is returned by either route, exactly when it was never partly returned
      after it had been returned. */
  lemma {:induction false} RowsFollowInvoices(dbs: seq<Db>, ops: seq<Op>, k: nat, j: nat)
    requires Run(dbs, ops) && DbOk(dbs[0]) && k <= |ops| && j < |dbs[k].sales| && OneRow(dbs[k].sales[j])
    requires j < |dbs[0].sales| ==> InvoiceGap(dbs[0], j) == 0
    ensures InvoiceGap(dbs[k], j) <= 0
    ensures InvoiceGap(dbs[k], j) == 0 <==> (forall m :: 0 <= m < k ==> RowsSafe(dbs[m], ops[m], dbs[m + 1], j))
  {
    hide Step, Fresh, Run, InvoiceGap;
    RunLength(dbs, ops);
    if k > 0 {
      StepOf(dbs, ops, k - 1);
      RunKeepsDb(dbs, ops, k - 1);
      StepRowsIff(dbs[k - 1], ops[k - 1], dbs[k], j);
      if j < |dbs[k - 1].sales| {
        RowsFollowInvoices(dbs, ops, k - 1, j);
      } else {
        NotYetSold(dbs, ops, k - 1, j);
      }
    }
  }

  /** Before an invoice exists every step is safe for it. */
  lemma {:induction false} NotYetSold(dbs: seq<Db>, ops: seq<Op>, k: nat, j: nat)
    requires Run(dbs, ops) && k <= |ops| && j >= |dbs[k].sales|
    ensures forall m :: 0 <= m <= k ==> j >= |dbs[m].sales|
  {
    hide Step, Fresh, Run;
    RunLength(dbs, ops);
    if k > 0 {
      StepOf(dbs, ops, k - 1);
      SalesStay(dbs[k - 1], ops[k - 1], dbs[k]);
      NotYetSold(dbs, ops, k - 1, j);
    }
  }

  // ----- the cash drawer -----

  /** The cash that leaves the drawer without its cash sales falling: what a refund takes beyond the shift's takings,
      and overpaid credit handed back on a split invoice while a shift is open. */
  ghost function CashUnseen(db: Db, op: Op): Amount
  {
    match op
    case PartReturn(id, product, qty) =>
      if CanReturnPart(db, id, product, qty) && SaleAt(db, id).total != 0
      then Uncovered(db.shifts, CashOut(db, id, product, qty)) else 0
    case FullReturn(id, legs) =>
      if !CanReturn(db, id) then 0
      else
        var s := SaleAt(db, id);
        var over := OverpaidAtReturn(db.customers, s, legs.debt);
        Uncovered(db.shifts, ReturnCash(s, over, legs.shift))
          + if ActiveShift(db.shifts).Some? && s.payMethod == Split then over else 0
    case _ => 0
  }

  lemma EnrolRows(db: Db, op: Op, db': Db, j: nat)
    requires Does(db, op, db') && op.Enrol? && j < |db'.sales|
    ensures j < |db.sales| && db'.sales[j] == db.sales[j] && InvoiceGap(db', j) == InvoiceGap(db, j)
  {
    hide Sum;
  }

  lemma EnrolDrawer(db: Db, op: Op, db': Db)
    requires Does(db, op, db') && op.Enrol? && ShiftsOk(db)
    ensures ShiftsOk(db') && DrawerGap(db') == DrawerGap(db)
  {
    hide Sum;
  }

  lemma StillDrawer(db: Db, op: Op, db': Db)
    requires DbOk(db) && DbOk(db') && Does(db, op, db') && BackOffice(op) && !op.Open? && !op.Close?
    ensures DrawerGap(db') == DrawerGap(db)
  {
    hide Does, Sum, SalesTableOk, ReferencesOk, OrdersOk, CustomerOk;
    BackOfficeFrame(db, op, db');
  }

  /** Opening or closing a shift, as opposed to working in one. */
  predicate ShiftChange(op: Op) { op.Open? || op.Close? }

  /** A step within a shift widens the drawer gap by exactly the cash unseen. */
  lemma StepDrawer(db: Db, op: Op, db': Db)
    requires DbOk(db) && Does(db, op, db') && Fresh(db, op) && !ShiftChange(op)
    ensures ShiftsOk(db') && DrawerGap(db') == DrawerGap(db) + CashUnseen(db, op) && CashUnseen(db, op) >= 0
  {
    hide DbOk, Sold, FullyReturned, PartlyReturned, Recorded, Collects, Received, CanPay, CanCancel, DrawerGap,
         ShiftsOk, SentReturnsOk, CashOut, OverpaidAtReturn, ReturnCash, Uncovered;
    StepKeepsDb(db, op, db');
    FullReturnLaws.ShiftsAreOk(db);
    FullReturnLaws.ShiftsAreOk(db');
    match op
    case Sell(cart, till) => SaleLaws.DrawerKept(db, cart, till, db');
    case PartReturn(id, product, qty) => PartDrawer(db, op, db');
    case FullReturn(id, legs) => FullDrawer(db, op, db');
    case Pay(q) => RecordDrawerKept(db, q, db');
    case Collect(q) => CollectDrawerKept(db, q, db');
    case Enrol(_, _) => EnrolDrawer(db, op, db');
    case _ => StillDrawer(db, op, db');
  }

  lemma PartDrawer(db: Db, op: Op, db': Db)
    requires DbOk(db) && Does(db, op, db') && op.PartReturn?
    ensures ShiftsOk(db') && DrawerGap(db') == DrawerGap(db) + CashUnseen(db, op) && CashUnseen(db, op) >= 0
  {
    hide ReturnPart, GoodsBack, CustomersAfterPart, PartialRows, SalesTableOk, ReferencesOk, OrdersOk, ShiftsOk,
         CashOut, DrawerGap, Uncovered;
    DrawerKeptIff(db, op.id, op.product, op.qty, db');
  }

  lemma FullDrawer(db: Db, op: Op, db': Db)
    requires DbOk(db) && Does(db, op, db') && op.FullReturn?
    ensures ShiftsOk(db') && DrawerGap(db') == DrawerGap(db) + CashUnseen(db, op) && CashUnseen(db, op) >= 0
  {
    hide AreScaledLegs, Restocked, ReturnMovements, CustomersAfterReturn, ReturnRows, ReturnValue, ReturnCash,
         OverpaidAtReturn, SalesTableOk, ReferencesOk, OrdersOk, ShiftsOk, DrawerGap, Uncovered;
    FullReturnLaws.DrawerKeptIff(db, op.id, op.legs, db');
  }

  lemma StepShiftChange(db: Db, op: Op, db': Db)
    requires DbOk(db) && Does(db, op, db') && Fresh(db, op) && ShiftChange(op)
    ensures ShiftsOk(db') && DrawerGap(db') == 0
  {
    hide Closed, Opened, SalesTableOk, ReferencesOk, OrdersOk, CustomerOk;
    match op
    case Open(id, staff, opening) => OpenStartsDrawer(db, id, staff, opening, db');
    case Close(id, closing, closer) => CloseExpectsCashRows(db, id, closing, closer, db');
  }

  /** The cash unseen by steps `j` up to `k`. */
  ghost function CashUnseenBetween(dbs: seq<Db>, ops: seq<Op>, j: nat, k: nat): Amount
    requires j <= k <= |ops| < |dbs|
    decreases k
  {
    if k == j then 0
    else CashUnseenBetween(dbs, ops, j, k - 1) + if dbs[k] == dbs[k - 1] then 0 else CashUnseen(dbs[k - 1], ops[k - 1])
  }

  lemma {:induction false} DrawerWidens(dbs: seq<Db>, ops: seq<Op>, j: nat, k: nat)
    requires Run(dbs, ops) && DbOk(dbs[0]) && j <= k <= |ops|
    requires forall m :: j <= m < k && ShiftChange(ops[m]) ==> dbs[m + 1] == dbs[m]
    ensures ShiftsOk(dbs[j]) && ShiftsOk(dbs[k])
    ensures DrawerGap(dbs[k]) == DrawerGap(dbs[j]) + CashUnseenBetween(dbs, ops, j, k)
    ensures forall m :: j <= m < k ==> dbs[m + 1] == dbs[m] || CashUnseen(dbs[m], ops[m]) >= 0
    decreases k
  {
    hide Step, Fresh, Run, CashUnseen, DrawerGap, ShiftsOk, DbOk, Does;
    RunLength(dbs, ops);
    RunShiftsOk(dbs, ops, j);
    RunShiftsOk(dbs, ops, k);
    if k > j {
      StepOf(dbs, ops, k - 1);
      DrawerWidens(dbs, ops, j, k - 1);
      RunKeepsDb(dbs, ops, k - 1);
      if dbs[k] != dbs[k - 1] {
        StepMeans(dbs[k - 1], ops[k - 1], dbs[k]);
        StepDrawer(dbs[k - 1], ops[k - 1], dbs[k]);
      }
    }
  }

  lemma {:induction false} NothingUnseenIff(dbs: seq<Db>, ops: seq<Op>, j: nat, k: nat)
    requires j <= k <= |ops| < |dbs|
    requires forall m :: j <= m < k ==> dbs[m + 1] == dbs[m] || CashUnseen(dbs[m], ops[m]) >= 0
    ensures CashUnseenBetween(dbs, ops, j, k) >= 0
    ensures CashUnseenBetween(dbs, ops, j, k) == 0
            <==> (forall m :: j <= m < k ==> dbs[m + 1] == dbs[m] || CashUnseen(dbs[m], ops[m]) == 0)
    decreases k
  {
    hide CashUnseen;
    if k > j {
      NothingUnseenIff(dbs, ops, j, k - 1);
      assert dbs[k - 1 + 1] == dbs[k - 1] || CashUnseen(dbs[k - 1], ops[k - 1]) >= 0;
    }
  }

  /** Within a shift the gap between its cash sales and the signed cash rows since it was opened widens by exactly the
      cash unseen: so they agree at the end exactly when they did at the start and every return was covered. */
  lemma CashSalesFollowRows(dbs: seq<Db>, ops: seq<Op>, j: nat, k: nat)
    requires Run(dbs, ops) && DbOk(dbs[0]) && j <= k <= |ops|
    requires forall m :: j <= m < k && ShiftChange(ops[m]) ==> dbs[m + 1] == dbs[m]
    ensures ShiftsOk(dbs[j]) && ShiftsOk(dbs[k])
    ensures DrawerGap(dbs[k]) == DrawerGap(dbs[j]) + CashUnseenBetween(dbs, ops, j, k) >= DrawerGap(dbs[j])
    ensures DrawerGap(dbs[k]) == DrawerGap(dbs[j]) <==>
              (forall m :: j <= m < k ==> dbs[m + 1] == dbs[m] || CashUnseen(dbs[m], ops[m]) == 0)
  {
    hide Run, CashUnseen, DrawerGap, ShiftsOk, CashUnseenBetween, DbOk;
    RunLength(dbs, ops);
    DrawerWidens(dbs, ops, j, k);
    NothingUnseenIff(dbs, ops, j, k);
  }

  lemma StepMeans(db: Db, op: Op, db': Db)
    requires Step(db, op, db') && db' != db
    ensures Does(db, op, db')
  {
    hide Does;
  }

  lemma RunShiftsOk(dbs: seq<Db>, ops: seq<Op>, k: nat)
    requires Run(dbs, ops) && DbOk(dbs[0]) && k <= |ops|
    ensures |dbs| == |ops| + 1 && ShiftsOk(dbs[k])
  {
    hide Step, Fresh, Run, DbOk;
    RunLength(dbs, ops);
    RunKeepsDb(dbs, ops, k);
    FullReturnLaws.ShiftsAreOk(dbs[k]);
  }

  /** A shift opened by step `j` and closed by step `k`, with none in between: closing expects opening balance + signed
      cash rows + deposits - withdrawals + the cash unseen, so the balance is right to the cent exactly when every
      return was covered. */
  lemma CloseBalances(dbs: seq<Db>, ops: seq<Op>, j: nat, k: nat)
    requires Run(dbs, ops) && DbOk(dbs[0]) && j < k < |ops|
    requires ops[j].Open? && dbs[j + 1] != dbs[j] && ops[k].Close? && dbs[k + 1] != dbs[k]
    requires forall m :: j < m < k && ShiftChange(ops[m]) ==> dbs[m + 1] == dbs[m]
    ensures FindShift(dbs[k].shifts, ops[k].shift).Some?
    ensures var i := FindShift(dbs[k].shifts, ops[k].shift).value;
            && i < |dbs[k + 1].shifts| && dbs[k + 1].shifts[i].openedAt <= |dbs[k].payments|
            && var s := dbs[k + 1].shifts[i];
               !s.isOpen && s.expectedBalance == s.openingBalance + Sum(dbs[k].payments[s.openedAt..], CashIn())
                 + Sum(dbs[k].cashMovements, Drawer(s.id, true)) - Sum(dbs[k].cashMovements, Drawer(s.id, false))
                 + CashUnseenBetween(dbs, ops, j + 1, k)
  {
    hide DbOk, Run, CashUnseen, DrawerGap, Sum, Fresh, Step, ShiftsOk;
    RunLength(dbs, ops);
    StepOf(dbs, ops, j);
    StepOf(dbs, ops, k);
    RunKeepsDb(dbs, ops, j);
    RunKeepsDb(dbs, ops, k);
    StepMeans(dbs[j], ops[j], dbs[j + 1]);
    StepMeans(dbs[k], ops[k], dbs[k + 1]);
    StepShiftChange(dbs[j], ops[j], dbs[j + 1]);
    CashSalesFollowRows(dbs, ops, j + 1, k);
    CloseStep(dbs[k], ops[k], dbs[k + 1]);
  }

  lemma CloseStep(db: Db, op: Op, db': Db)
    requires DbOk(db) && Does(db, op, db') && op.Close?
    ensures ShiftsOk(db) && FindShift(db.shifts, op.shift).Some?
    ensures var i := FindShift(db.shifts, op.shift).value;
            && i < |db'.shifts| && db'.shifts[i].openedAt <= |db.payments|
            && var s := db'.shifts[i];
               !s.isOpen && s.expectedBalance == s.openingBalance + Sum(db.payments[s.openedAt..], CashIn())
                 + Sum(db.cashMovements, Drawer(s.id, true)) - Sum(db.cashMovements, Drawer(s.id, false))
                     + DrawerGap(db)
  {
    hide SalesTableOk, ReferencesOk, OrdersOk, CustomerOk, DrawerGap, Sum;
    CloseExpectsCashRows(db, op.shift, op.closing, op.closer, db');
  }

  /** And over any number of shifts, from agreement on: cash sales and cash rows agree at every moment exactly when
      every return was covered. */
  lemma {:induction false} DrawerAgreesIff(dbs: seq<Db>, ops: seq<Op>, k: nat)
    requires Run(dbs, ops) && DbOk(dbs[0]) && k <= |ops| && DrawerGap(dbs[0]) == 0
    ensures forall m :: 0 <= m <= k ==> ShiftsOk(dbs[m])
    ensures (forall m :: 0 <= m <= k ==> DrawerGap(dbs[m]) == 0)
            <==> (forall m :: 0 <= m < k ==> dbs[m + 1] == dbs[m] || CashUnseen(dbs[m], ops[m]) == 0)
  {
    hide Step, Fresh, Run, CashUnseen, DrawerGap, ShiftsOk, DbOk, Does;
    RunLength(dbs, ops);
    RunShiftsOk(dbs, ops, k);
    if k > 0 {
      StepOf(dbs, ops, k - 1);
      DrawerAgreesIff(dbs, ops, k - 1);
      RunKeepsDb(dbs, ops, k - 1);
      if dbs[k] != dbs[k - 1] {
        StepMeans(dbs[k - 1], ops[k - 1], dbs[k]);
        if ShiftChange(ops[k - 1]) {
          StepShiftChange(dbs[k - 1], ops[k - 1], dbs[k]);
          NothingUnseen(dbs[k - 1], ops[k - 1]);
        } else {
          StepDrawer(dbs[k - 1], ops[k - 1], dbs[k]);
        }
      }
    }
  }

  lemma NothingUnseen(db: Db, op: Op)
    requires ShiftChange(op)
    ensures CashUnseen(db, op) == 0
  {
  }
}
