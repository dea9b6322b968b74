/** What it means for the redundant counters of the ledger to agree with the rows they summarise. Each law is a gap
    between a counter and its rows: a law is kept when the gap does not move. */
module Books {
  import opened Money
  import opened Domain
  import opened Sums
  import opened Refunds
  import opened SplitLegs
  import opened Points
  import opened Store

  // ----- row measures -----

  ghost function StockIn(product: Id): Movement -> int
  {
    (m: Movement) => if m.product == product then m.qty else 0
  }

  /** Goods of `product` that came back (positive) or went out (negative) on the sale `sale`. */
  ghost function SaleFlow(sale: Id, product: Id): Movement -> int
  {
    (m: Movement) => if m.ref == sale && m.kind != Restock && m.product == product then m.qty else 0
  }

  /** Goods of `product` still out on a line. */
  ghost function StillOut(product: Id): Line -> int
  {
    (line: Line) => if line.product == product then line.qty - line.returned else 0
  }

  ghost function CashIn(): Payment -> int
  {
    (p: Payment) => if p.payMethod == Cash then p.amount else 0
  }

  /** Rows written by selling or returning an invoice, as opposed to later payments linked to it. */
  ghost function InvoiceRow(sale: Id): Payment -> int
  {
    (p: Payment) => if p.sale == sale && !p.note.UserRow? && !p.note.InstallmentRow? then p.amount else 0
  }

  /** Rows that settle a customer's debt: payments, less cash handed back for overpaid credit. */
  ghost function Settles(customer: Id): Payment -> int
  {
    (p: Payment) => if p.customer == customer && (p.note.UserRow? || p.note.OverpaidCreditRow?) then p.amount else 0
  }

  predicate Live(sale: Sale) { sale.status != Returned }

  ghost function LiveTotal(customer: Id): Sale -> int
  {
    (s: Sale) => if s.customer == customer && Live(s) then s.total else 0
  }

  /** What an invoice still has on credit: its total, or the credit leg saleRemainingLegs gives it. */
  ghost function OnCredit(sale: Sale): Amount
  {
    match sale.payMethod
    case Credit => sale.total
    case Split => CreditLegOf(sale.total, sale.split)
    case _ => 0
  }

  ghost function LiveCredit(customer: Id): Sale -> int
  {
    (s: Sale) => if s.customer == customer && Live(s) then OnCredit(s) else 0
  }

  /** The points a live invoice stands for. */
  ghost function LivePoints(customer: Id): Sale -> int
  {
    (s: Sale) => if s.customer == customer && Live(s) then PointsFor(s.total) else 0
  }

  ghost function EntryAmount(paid: bool): Installment -> int
  {
    (e: Installment) => if e.paid == paid then e.amount else 0
  }

  ghost function Schedule(sale: Sale): seq<Installment>
  {
    if sale.plan.Some? && sale.plan.value.schedule.Some? then sale.plan.value.schedule.value else []
  }

  function DownPayment(sale: Sale): Amount
  {
    if sale.plan.Some? then sale.plan.value.downPayment else 0
  }

  /** Total less down payment less the installments paid. */
  ghost function Outstanding(sale: Sale): Amount
  {
    sale.total - DownPayment(sale) - Sum(Schedule(sale), EntryAmount(true))
  }

  /** What the customer owes on it: never less than nothing, whatever partial returns took off its total. */
  ghost function Owes(sale: Sale): Amount
  {
    if Outstanding(sale) > 0 then Outstanding(sale) else 0
  }

  ghost function LiveInstallments(customer: Id): Sale -> int
  {
    (s: Sale) => if s.customer == customer && s.payMethod == Installments && Live(s) then Owes(s) else 0
  }

  ghost function ScheduledAmount(): Installment -> int { (e: Installment) => e.amount }

  /** An installment invoice's schedule, if it has one, covers exactly its financed part. */
  ghost predicate ScheduleExact(sale: Sale)
  {
    sale.payMethod == Installments && sale.plan.Some? ==>
      && DownPayment(sale) <= sale.total
      && (sale.plan.value.schedule.Some? ==> Sum(Schedule(sale), ScheduledAmount()) == sale.total - DownPayment(sale))
  }

  // ----- the gaps -----

  ghost function StockGap(db: Db, product: Id): int
    requires product in db.products
  {
    db.products[product].stock - Sum(db.movements, StockIn(product))
  }

  ghost function PurchasesGap(db: Db, customer: Id): int
    requires customer in db.customers
  {
    db.customers[customer].totalPurchases - Sum(db.sales, LiveTotal(customer))
  }

  ghost function InstallmentGap(db: Db, customer: Id): int
    requires customer in db.customers
  {
    db.customers[customer].installmentDebt - Sum(db.sales, LiveInstallments(customer))
  }

  ghost function DebtGap(db: Db, customer: Id): int
    requires customer in db.customers
  {
    db.customers[customer].debt - Sum(db.sales, LiveCredit(customer)) + Sum(db.payments, Settles(customer))
  }

  ghost function PointsGap(db: Db, customer: Id): int
    requires customer in db.customers
  {
    db.customers[customer].points - Sum(db.sales, LivePoints(customer))
  }

  /** For the open shift, if any: its cash sales against the cash rows written since it was opened. */
  ghost function DrawerGap(db: Db): int
    requires ShiftsOk(db)
  {
    match ActiveShift(db.shifts)
    case None => 0
    case Some(i) => db.shifts[i].cashSales - Sum(db.payments[db.shifts[i].openedAt..], CashIn())
  }

  /** Goods of `product` that moved on the invoice, plus what it still has out: zero when every line restored what it
      should. */
  ghost function FlowGap(db: Db, i: nat, product: Id): int
    requires i < |db.sales|
  {
    Sum(db.movements, SaleFlow(db.sales[i].id, product)) + GoodsOut(db.sales[i], product)
  }

  ghost function GoodsOut(sale: Sale, product: Id): Milli
  {
    if Live(sale) then Sum(sale.lines, StillOut(product)) else 0
  }

  /** For a stored invoice: its rows against what it still stands for. */
  ghost function InvoiceGap(db: Db, i: nat): int
    requires i < |db.sales|
  {
    Sum(db.payments, InvoiceRow(db.sales[i].id)) - (if Live(db.sales[i]) then db.sales[i].total else 0)
  }

  // ----- the invariant every operation keeps -----

  ghost predicate SplitOk(sale: Sale)
  {
    sale.payMethod == Split && sale.split.Some? ==>
      && NonNegative(sale.split.value) && sale.total <= SumMap(sale.split.value)
      && (sale.customer == NoId ==> Credit !in sale.split.value || sale.split.value[Credit] <= 0)
  }

  ghost predicate PlanOk(sale: Sale)
  {
    sale.payMethod == Installments ==>
      && DownPayment(sale) >= 0
      && forall k :: 0 <= k < |Schedule(sale)| ==> Schedule(sale)[k].amount >= 0
  }

  /** An invoice reads paid only when every entry of its schedule is paid. */
  ghost predicate PaidOk(sale: Sale)
  {
    sale.status == Paid ==> forall k :: 0 <= k < |Schedule(sale)| ==> Schedule(sale)[k].paid
  }

  predicate Collectable(sale: Sale) { sale.status != Returned && sale.status != PartiallyReturned }

  /** Only partial and full returns leave a schedule that is out of step with the invoice. */
  ghost predicate ScheduleOk(sale: Sale) { Collectable(sale) ==> ScheduleExact(sale) }

  ghost predicate StoredSaleOk(db: Db, sale: Sale)
  {
    && SaleOk(sale) && SplitOk(sale) && PlanOk(sale) && PaidOk(sale) && ScheduleOk(sale)
    && sale.id != NoId
    && (sale.customer != NoId ==> sale.customer in db.customers)
    && (sale.payMethod == Credit || sale.payMethod == Installments ==> sale.customer != NoId)
  }

  ghost predicate CustomerOk(c: Customer)
  {
    c.debt >= 0 && c.installmentDebt >= 0 && c.totalPurchases >= 0 && c.points >= 0
  }

  ghost predicate SalesTableOk(db: Db)
  {
    && (forall i :: 0 <= i < |db.sales| ==> StoredSaleOk(db, db.sales[i]))
    && (forall i, j :: 0 <= i < j < |db.sales| ==> db.sales[i].id != db.sales[j].id)
  }

  ghost predicate SaleExists(db: Db, id: Id) { exists i :: 0 <= i < |db.sales| && db.sales[i].id == id }

  ghost predicate ReferencesOk(db: Db)
  {
    && (forall k :: 0 <= k < |db.payments| ==> db.payments[k].sale == NoId || SaleExists(db, db.payments[k].sale))
    && (forall k :: 0 <= k < |db.movements| ==> db.movements[k].kind == Restock || SaleExists(db, db.movements[k].ref))
  }

  /** Whoever a payment row names is on file. */
  ghost predicate PayersOk(payments: seq<Payment>, customers: map<Id, Customer>)
  {
    forall k :: 0 <= k < |payments| ==> payments[k].customer == NoId || payments[k].customer in customers
  }

  ghost predicate ShiftsOk(db: Db)
  {
    && (forall i, j :: 0 <= i < j < |db.shifts| ==> !(db.shifts[i].isOpen && db.shifts[j].isOpen))
    && (forall i :: 0 <= i < |db.shifts| ==> db.shifts[i].openedAt <= |db.payments| && db.shifts[i].cashSales >= 0)
    && (forall i, j :: 0 <= i < j < |db.shifts| ==> db.shifts[i].id != db.shifts[j].id)
  }

  /** Nothing has arrived of a pending order, something of a partial one and everything of a received one. Everything
      may also have arrived of a partial one. */
  ghost predicate OrderOk(order: Order)
  {
    && order.lines != []
    && (forall k :: 0 <= k < |order.lines| ==>
         order.lines[k].qty > 0 && 0 <= order.lines[k].received <= order.lines[k].qty)
    && 0 <= order.paid <= order.total
    && (order.status == OrderPending ==> forall k :: 0 <= k < |order.lines| ==> order.lines[k].received == 0)
    && (order.status == OrderReceived ==> forall k :: 0 <= k < |order.lines| ==>
         order.lines[k].received == order.lines[k].qty)
    && (order.status == OrderPartial ==> exists k :: 0 <= k < |order.lines| && order.lines[k].received > 0)
  }

  ghost predicate OrdersOk(db: Db)
  {
    && (forall i :: 0 <= i < |db.orders| ==> OrderOk(db.orders[i]))
    && (forall i, j :: 0 <= i < j < |db.orders| ==> db.orders[i].id != db.orders[j].id)
  }

  ghost predicate DbOk(db: Db)
  {
    && SalesTableOk(db)
    && (forall p :: p in db.products ==> db.products[p].stock >= 0)
    && (forall c :: c in db.customers ==> CustomerOk(db.customers[c]))
    && NoId !in db.customers
    && ReferencesOk(db) && PayersOk(db.payments, db.customers)
    && ShiftsOk(db)
    && OrdersOk(db)
  }

  // ----- schedules -----

  lemma {:induction false} PaidAndUnpaid(schedule: seq<Installment>)
    ensures Sum(schedule, ScheduledAmount()) == Sum(schedule, EntryAmount(true)) + Sum(schedule, EntryAmount(false))
  {
    if schedule != [] { PaidAndUnpaid(schedule[..|schedule| - 1]); }
  }

  /** What an exact invoice has outstanding is what its unpaid entries add up to - the remaining amount of the
      installment summary - as long as it has a schedule at all. */
  lemma OutstandingIsUnpaid(sale: Sale)
    requires PlanOk(sale) && ScheduleExact(sale) && sale.payMethod == Installments && sale.total >= 0
    ensures Outstanding(sale) >= 0
    ensures sale.plan.Some? && sale.plan.value.schedule.Some? ==>
              Outstanding(sale) == Sum(Schedule(sale), EntryAmount(false))
  {
    hide Sum;
    PaidAndUnpaid(Schedule(sale));
    SumNonNegative(Schedule(sale), EntryAmount(false));
    if Schedule(sale) == [] { SumZero(Schedule(sale), EntryAmount(true)); }
  }

  // ----- one payment row per leg -----

  /** Exactly one row for every positive leg, in whatever order, each for the leg's amount times `sign`. */
  ghost predicate RowPerLeg(rows: seq<Payment>, legs: Legs, sale: Sale, sign: int, note: Note)
  {
    && (forall k :: 0 <= k < |rows| ==> IsLegRow(rows[k], legs, sale, sign, note))
    && (forall j, k :: 0 <= j < k < |rows| ==> rows[j].payMethod != rows[k].payMethod)
    && (forall m :: m in legs && legs[m] > 0 ==> exists k :: 0 <= k < |rows| && rows[k].payMethod == m)
  }

  predicate IsLegRow(row: Payment, legs: Legs, sale: Sale, sign: int, note: Note)
  {
    && row.payMethod in legs && legs[row.payMethod] > 0
    && row == Payment(sale.id, sale.customer, sign * legs[row.payMethod], row.payMethod, note)
  }

  ghost function ByMethod(m: PayMethod): Payment -> int
  {
    (p: Payment) => if p.payMethod == m then p.amount else 0
  }

  ghost function AmountOf(): Payment -> int { (p: Payment) => p.amount }

  lemma AddLegRow(rows: seq<Payment>, done: Legs, sale: Sale, sign: int, note: Note, m: PayMethod, amount: Amount)
    requires RowPerLeg(rows, done, sale, sign, note) && m !in done && amount > 0
    ensures RowPerLeg(rows
              + [Payment(sale.id, sale.customer, sign * amount, m, note)], done[m := amount], sale, sign, note)
  {
    var all := rows + [Payment(sale.id, sale.customer, sign * amount, m, note)];
    var legs := done[m := amount];
    forall k | 0 <= k < |all| ensures IsLegRow(all[k], legs, sale, sign, note) {
      if k < |rows| { assert IsLegRow(rows[k], done, sale, sign, note); }
    }
    forall n | n in legs && legs[n] > 0 ensures exists k :: 0 <= k < |all| && all[k].payMethod == n {
      if n == m {
        assert all[|rows|].payMethod == m;
      } else {
        var k :| 0 <= k < |rows| && rows[k].payMethod == n;
        assert all[k].payMethod == n;
      }
    }
  }

  lemma SkipLegRow(rows: seq<Payment>, done: Legs, sale: Sale, sign: int, note: Note, m: PayMethod, amount: Amount)
    requires RowPerLeg(rows, done, sale, sign, note) && m !in done && amount <= 0
    ensures RowPerLeg(rows, done[m := amount], sale, sign, note)
  {
    forall k | 0 <= k < |rows| ensures IsLegRow(rows[k], done[m := amount], sale, sign, note) {
      assert IsLegRow(rows[k], done, sale, sign, note);
    }
  }

  lemma FrontLegRows(rows: seq<Payment>, legs: Legs, sale: Sale, sign: int, note: Note)
    requires RowPerLeg(rows, legs, sale, sign, note) && rows != []
    ensures var m := rows[|rows| - 1].payMethod;
            m in legs && legs[m] > 0 && rows[|rows| - 1].amount == sign * legs[m]
            && RowPerLeg(rows[..|rows| - 1], legs - {m}, sale, sign, note)
  {
    var last := |rows| - 1;
    var m := rows[last].payMethod;
    var front := rows[..last];
    assert IsLegRow(rows[last], legs, sale, sign, note);
    forall k | 0 <= k < |front| ensures IsLegRow(front[k], legs - {m}, sale, sign, note) {
      assert IsLegRow(rows[k], legs, sale, sign, note);
    }
    forall n | n in legs - {m} && (legs - {m})[n] > 0 ensures exists k :: 0 <= k < |front| && front[k].payMethod == n {
      var k :| 0 <= k < |rows| && rows[k].payMethod == n;
      assert front[k].payMethod == n;
    }
  }

  /** Row order is immaterial: the rows of the legs sum to the legs. */
  lemma {:induction false} LegRowsSum(rows: seq<Payment>, legs: Legs, sale: Sale, sign: int, note: Note)
    requires RowPerLeg(rows, legs, sale, sign, note) && NonNegative(legs)
    ensures Sum(rows, AmountOf()) == sign * SumMap(legs)
    ensures Sum(rows, CashIn()) == sign * LegOf(legs, Cash)
    decreases |rows|
  {
    hide SumMap, RowPerLeg;
    if rows == [] {
      NoLegRows(legs, sale, sign, note);
    } else {
      var last := |rows| - 1;
      var m := rows[last].payMethod;
      var front := rows[..last];
      FrontLegRows(rows, legs, sale, sign, note);
      LegRowsSum(front, legs - {m}, sale, sign, note);
      TakeKey(legs, m);
      assert sign * SumMap(legs) == sign * legs[m] + sign * SumMap(legs - {m});
    }
  }

  /** And method by method: the one row of a leg is all there is of its method. */
  lemma LegRowsOf(rows: seq<Payment>, legs: Legs, sale: Sale, sign: int, note: Note, m: PayMethod)
    requires RowPerLeg(rows, legs, sale, sign, note) && NonNegative(legs)
    ensures Sum(rows, ByMethod(m)) == sign * LegOf(legs, m)
  {
    hide Sum;
    forall k | 0 <= k < |rows| ensures rows[k].payMethod in legs && legs[rows[k].payMethod] > 0
                                       && rows[k].amount == sign * legs[rows[k].payMethod] {
      assert IsLegRow(rows[k], legs, sale, sign, note);
    }
    if LegOf(legs, m) > 0 {
      var k :| 0 <= k < |rows| && rows[k].payMethod == m;
      SumSingle(rows, k, ByMethod(m));
    } else {
      SumZero(rows, ByMethod(m));
    }
  }

  lemma NoLegRows(legs: Legs, sale: Sale, sign: int, note: Note)
    requires RowPerLeg([], legs, sale, sign, note) && NonNegative(legs)
    ensures SumMap(legs) == 0 && LegOf(legs, Cash) == 0
  {
    AllZero(legs);
  }

  lemma AllZero(legs: Legs)
    requires forall m :: m in legs ==> legs[m] == 0
    ensures SumMap(legs) == 0
    decreases |legs|
  {
    if legs != map[] {
      var k :| k in legs;
      TakeKey(legs, k);
      RemoveKey(legs, k);
      AllZero(legs - {k});
    }
  }
}
