/** The ledger laws across one full return. */
module FullReturnLaws {
  import opened Money
  import opened Domain
  import opened Sums
  import opened Refunds
  import opened SplitLegs
  import opened Points
  import opened Store
  import opened Books
  import opened SaleSteps
  import opened FullReturnSteps
  import opened PartialReturnLaws

  /** What the movements of a full return add up to. */
  lemma {:induction false} MovementsSum(lines: seq<Line>, products: map<Id, Product>, id: Id, p: Id)
    requires forall k :: 0 <= k < |lines| ==> LineOk(lines[k])
    ensures var ms := ReturnMovements(lines, products, id);
            var back := if p in products then Sum(lines, StillOut(p)) else 0;
            Sum(ms, StockIn(p)) == back && Sum(ms, SaleFlow(id, p)) == back
  {
    if lines != [] {
      var front, line := lines[..|lines| - 1], lines[|lines| - 1];
      var before := ReturnMovements(front, products, id);
      MovementsSum(front, products, id, p);
      var m := Movement(line.product, ReturnIn, line.qty - line.returned, id);
      SumAppend(before, m, StockIn(p));
      SumAppend(before, m, SaleFlow(id, p));
    }
  }

  lemma OtherFlow(ms: seq<Movement>, id: Id, other: Id, p: Id)
    requires other != id && forall k :: 0 <= k < |ms| ==> ms[k].ref == id
    ensures Sum(ms, SaleFlow(other, p)) == 0
  {
    SumZero(ms, SaleFlow(other, p));
  }

  lemma StockKept(db: Db, id: Id, legs: ScaledLegs, db': Db, p: Id)
    requires DbOk(db) && FullyReturned(db, id, legs, db') && p in db.products
    ensures p in db'.products && StockGap(db', p) == StockGap(db, p)
  {
    hide Sum, ReturnRows, CustomersAfterReturn, ReturnMovements, ReturnCash, ReturnValue, AreScaledLegs;
    var sale := SaleAt(db, id);
    SaleStored(db, FindSale(db.sales, id).value);
    MovementsSum(sale.lines, db.products, id, p);
    SumConcat(db.movements, ReturnMovements(sale.lines, db.products, id), StockIn(p));
  }

  /** A full return brings back exactly what the invoice still had out, and nothing for deleted products. */
  lemma FlowKept(db: Db, id: Id, legs: ScaledLegs, db': Db, j: nat, p: Id)
    requires DbOk(db) && FullyReturned(db, id, legs, db') && j < |db.sales|
    ensures j < |db'.sales| && db'.sales[j].id == db.sales[j].id
    ensures FlowGap(db', j, p) <= FlowGap(db, j, p)
    ensures p in db.products ==> FlowGap(db', j, p) == FlowGap(db, j, p)
  {
    hide Sum, ReturnRows, CustomersAfterReturn, ReturnMovements, ReturnCash, ReturnValue, AreScaledLegs, Restocked;
    var i := FindSale(db.sales, id).value;
    var sale := db.sales[i];
    SaleStored(db, i);
    var ms := ReturnMovements(sale.lines, db.products, id);
    SumConcat(db.movements, ms, SaleFlow(db.sales[j].id, p));
    if j == i {
      MovementsSum(sale.lines, db.products, id, p);
      StillOutNonNegative(sale.lines, p);
    } else {
      OtherFlow(ms, id, db.sales[j].id, p);
    }
  }

  lemma SalesSum(db: Db, id: Id, legs: ScaledLegs, db': Db, f: Sale -> int)
    requires FullyReturned(db, id, legs, db')
    ensures Sum(db'.sales, f) == Sum(db.sales, f) - f(SaleAt(db, id)) + f(SaleAt(db, id).(status := Returned))
  {
    hide Sum, ReturnRows, CustomersAfterReturn, ReturnMovements, ReturnCash, ReturnValue, AreScaledLegs, Restocked;
    var i := FindSale(db.sales, id).value;
    SumUpdate(db.sales, i, db'.sales[i], f);
  }

  lemma PurchasesKept(db: Db, id: Id, legs: ScaledLegs, db': Db, c: Id)
    requires DbOk(db) && FullyReturned(db, id, legs, db') && c in db.customers
    requires PurchasesGap(db, c) >= 0
    ensures c in db'.customers && PurchasesGap(db', c) == PurchasesGap(db, c)
  {
    hide Sum, ReturnRows, ReturnMovements, ReturnCash, ReturnValue, AreScaledLegs, Restocked, DebtReturned, Outstanding;
    var i := FindSale(db.sales, id).value;
    SaleStored(db, i);
    SalesSum(db, id, legs, db', LiveTotal(c));
    LiveTotalBound(db, i, c);
  }

  /** Installment debt stays in agreement exactly when it covers what the invoice owes - so always, while it covers what
      all of the customer's invoices owe together. */
  lemma InstallmentsKept(db: Db, id: Id, legs: ScaledLegs, db': Db, c: Id)
    requires DbOk(db) && FullyReturned(db, id, legs, db') && c in db.customers
    ensures c in db'.customers
    ensures InstallmentGap(db', c) == InstallmentGap(db, c) <==>
              (SaleAt(db, id).payMethod == Installments && SaleAt(db, id).customer == c ==>
                 Owes(SaleAt(db, id)) <= db.customers[c].installmentDebt)
    ensures InstallmentGap(db, c) >= 0 ==> InstallmentGap(db', c) == InstallmentGap(db, c)
  {
    hide Sum, ReturnRows, ReturnMovements, ReturnCash, ReturnValue, AreScaledLegs, Restocked, DebtReturned, Outstanding;
    SalesSum(db, id, legs, db', LiveInstallments(c));
    var s := SaleAt(db, id);
    if InstallmentGap(db, c) >= 0 && s.payMethod == Installments && s.customer == c {
      OwesWithinDebt(db, c, FindSale(db.sales, id).value);
    }
  }

  /** Debt drop plus cash handed back equals the value returned, and debt keeps agreeing with live credit less
      settlements: the full return takes off exactly the credit the invoice still had. */
  lemma DebtKept(db: Db, id: Id, legs: ScaledLegs, db': Db, c: Id)
    requires DbOk(db) && FullyReturned(db, id, legs, db') && c in db.customers
    ensures c in db'.customers && DebtGap(db', c) == DebtGap(db, c)
    ensures var s := SaleAt(db, id);
            s.customer == c ==>
              (db.customers[c].debt - db'.customers[c].debt)
                  + OverpaidAtReturn(db.customers, s, legs.debt) == OnCredit(s)
  {
    hide Sum, ReturnRows, ReturnMovements, ReturnCash, ReturnValue, Restocked, Outstanding, CreditLegOf, RemainingLegs;
    var s := SaleAt(db, id);
    SaleStored(db, FindSale(db.sales, id).value);
    SalesSum(db, id, legs, db', LiveCredit(c));
    SettlingRows(db, id, legs, db', c);
    CreditLegIs(s.total, s.split, legs.debt);
  }

  /** Points in excess of those the customer's live invoices stand for only grow, by what the clamp keeps. */
  lemma PointsMove(db: Db, id: Id, legs: ScaledLegs, db': Db, c: Id)
    requires DbOk(db) && FullyReturned(db, id, legs, db') && c in db.customers
    ensures c in db'.customers
    ensures var s := SaleAt(db, id);
            PointsGap(db', c) == PointsGap(db, c)
              + if s.customer == c then PointsFor(s.total) - Min(db.customers[c].points, PointsFor(s.total)) else 0
  {
    hide Sum, ReturnRows, ReturnMovements, ReturnCash, ReturnValue, AreScaledLegs, Restocked, DebtReturned, Outstanding,
         Div;
    SalesSum(db, id, legs, db', LivePoints(c));
  }

  lemma SettlingRows(db: Db, id: Id, legs: ScaledLegs, db': Db, c: Id)
    requires DbOk(db) && FullyReturned(db, id, legs, db')
    ensures var s := SaleAt(db, id);
            Sum(db'.payments, Settles(c)) == Sum(db.payments, Settles(c))
              - (if s.customer == c then OverpaidAtReturn(db.customers, s, legs.debt) else 0)
  {
    hide Sum, CustomersAfterReturn, ReturnMovements, ReturnCash, ReturnValue, AreScaledLegs, Restocked, ReturnRows;
    var sale := SaleAt(db, id);
    var over := OverpaidAtReturn(db.customers, sale, legs.debt);
    var rows := db'.payments[|db.payments|..];
    SumGrows(db.payments, db'.payments, Settles(c));
    ReturnRowsSettle(sale, over, legs.rows, rows, c);
    OverpaidMeans(db.customers, sale, legs.debt);
  }

  lemma OverpaidMeans(customers: map<Id, Customer>, sale: Sale, legs: Legs)
    ensures OverpaidAtReturn(customers, sale, legs) >= 0
    ensures sale.payMethod != Credit && sale.payMethod != Split ==> OverpaidAtReturn(customers, sale, legs) == 0
  {
  }

  lemma ReturnRowsSettle(sale: Sale, over: Amount, legs: Legs, rows: seq<Payment>, c: Id)
    requires ReturnRows(sale, over, legs, rows) && over >= 0
    ensures Sum(rows, Settles(c)) ==
              if sale.customer == c && (sale.payMethod == Credit || sale.payMethod == Split) then -over else 0
  {
    hide Sum, RowPerLeg, Collected;
    if sale.payMethod == Split {
      var first := OverpaidRows(sale, over);
      SumGrows(first, rows, Settles(c));
      OverpaidSum(sale, over, Settles(c));
      if sale.split.Some? {
        LegRowsNote(rows[|first|..], legs - {Credit}, sale, -1, SplitRefundRow);
      }
      SumZero(rows[|first|..], Settles(c));
    } else if rows == [] {
      SumZero(rows, Settles(c));
    } else {
      SumOne(rows[0], Settles(c));
    }
  }

  lemma OverpaidSum(sale: Sale, over: Amount, f: Payment -> int)
    requires over >= 0
    ensures Sum(OverpaidRows(sale, over), f) ==
              if over > 0 then f(Payment(sale.id, sale.customer, -over, Cash, OverpaidCreditRow)) else 0
  {
  }

  lemma LegRowsNote(rows: seq<Payment>, legs: Legs, sale: Sale, sign: int, note: Note)
    requires RowPerLeg(rows, legs, sale, sign, note)
    ensures forall k :: 0 <= k < |rows| ==> rows[k].note == note && rows[k].sale == sale.id
  {
    forall k | 0 <= k < |rows| ensures rows[k].note == note && rows[k].sale == sale.id {
      assert IsLegRow(rows[k], legs, sale, sign, note);
    }
  }

  /** Cash and card invoices end with their rows at what they stand for: nothing. */
  lemma InvoiceKept(db: Db, id: Id, legs: ScaledLegs, db': Db, j: nat)
    requires DbOk(db) && FullyReturned(db, id, legs, db') && j < |db.sales|
    requires var s := db.sales[j]; s.id == id ==> s.payMethod == Cash || s.payMethod == Card
    ensures j < |db'.sales| && InvoiceGap(db', j) == InvoiceGap(db, j)
  {
    hide Sum, CustomersAfterReturn, ReturnMovements, ReturnCash, ReturnValue, AreScaledLegs, Restocked, RowPerLeg,
         Collected;
    var sale := SaleAt(db, id);
    var over := OverpaidAtReturn(db.customers, sale, legs.debt);
    var rows := db'.payments[|db.payments|..];
    var f := InvoiceRow(db.sales[j].id);
    SumGrows(db.payments, db'.payments, f);
    if db.sales[j].id == id {
      SumOne(rows[0], f);
    } else {
      ReturnRowsRef(sale, over, legs.rows, rows);
      SumZero(rows, f);
    }
  }

  /** Whichever leg Go's map order favours, the cash and credit legs come out the same on every call. */
  lemma CashLegIsFixed(total: Amount, split: Option<Legs>, a: Legs, b: Legs)
    requires RemainingLegs(total, split, a) && RemainingLegs(total, split, b)
    ensures LegOf(a, Cash) == LegOf(b, Cash) && LegOf(a, Credit) == LegOf(b, Credit)
  {
    hide SumMap;
  }

  /** The rows of a fully returned split invoice sum to its remaining total less the credit leg, and the cash among them
      is the cash leg. */
  lemma SplitRowsSum(sale: Sale, legs: Legs, rows: seq<Payment>)
    requires SplitOk(sale) && sale.payMethod == Split && sale.split.Some? && 0 <= sale.total
             && SumMap(sale.split.value) > 0
    requires RemainingLegs(sale.total, sale.split, legs)
    requires RowPerLeg(rows, legs - {Credit}, sale, -1, SplitRefundRow)
    ensures Sum(rows, AmountOf()) == -(sale.total - LegOf(legs, Credit)) && Sum(rows, CashIn()) == -LegOf(legs, Cash)
  {
    hide SumMap, Sum, RowPerLeg, RemainingLegs;
    var taker := RemainingLegsSumToTotal(sale.total, sale.split.value, legs);
    LegRowsSum(rows, legs - {Credit}, sale, -1, SplitRefundRow);
    if Credit in legs {
      TakeKey(legs, Credit);
    } else {
      assert legs - {Credit} == legs;
    }
  }

  lemma LegsEmpty(sale: Sale, legs: Legs, rows: seq<Payment>)
    requires sale.split.Some? && SumMap(sale.split.value) <= 0 && RemainingLegs(sale.total, sale.split, legs)
    requires RowPerLeg(rows, legs - {Credit}, sale, -1, SplitRefundRow)
    ensures rows == [] && legs == map[]
  {
    assert |rows| > 0 ==> IsLegRow(rows[0], legs - {Credit}, sale, -1, SplitRefundRow);
  }

  /** The cash rows of a full return: what the shift is told, plus the overpaid credit of a split invoice, which it is
      not. */
  lemma ReturnCashRows(customers: map<Id, Customer>, sale: Sale, legs: ScaledLegs, rows: seq<Payment>)
    requires SplitOk(sale) && 0 <= sale.total && AreScaledLegs(sale, legs)
    requires ReturnRows(sale, OverpaidAtReturn(customers, sale, legs.debt), legs.rows, rows)
    requires sale.payMethod == Installments ==> Collected(sale) >= 0
    ensures var over := OverpaidAtReturn(customers, sale, legs.debt);
            var cash := ReturnCash(sale, over, legs.shift);
            && 0 <= cash <= ReturnValue(sale, over, legs.shift)
            && Sum(rows, CashIn()) == -cash - (if sale.payMethod == Split then over else 0)
  {
    hide Sum, SumMap, RowPerLeg, OverpaidAtReturn, RemainingLegs, Collected;
    var over := OverpaidAtReturn(customers, sale, legs.debt);
    OverpaidMeans(customers, sale, legs.debt);
    if sale.payMethod == Split {
      SplitCashRows(sale, over, legs, rows);
    } else if rows == [] {
      SumZero(rows, CashIn());
    } else {
      SumOne(rows[0], CashIn());
    }
  }

  lemma SplitCashRows(sale: Sale, over: Amount, legs: ScaledLegs, rows: seq<Payment>)
    requires SplitOk(sale) && 0 <= sale.total && AreScaledLegs(sale, legs) && over >= 0
    requires sale.payMethod == Split && ReturnRows(sale, over, legs.rows, rows)
    ensures LegOf(legs.shift, Cash) >= 0 && LegOf(legs.shift, Card) >= 0
    ensures Sum(rows, CashIn()) == -LegOf(legs.shift, Cash) - over
  {
    hide Sum, SumMap, RowPerLeg;
    var first := OverpaidRows(sale, over);
    SumGrows(first, rows, CashIn());
    OverpaidSum(sale, over, CashIn());
    if sale.split.Some? && SumMap(sale.split.value) > 0 {
      var t := RemainingLegsSumToTotal(sale.total, sale.split.value, legs.shift);
      CashLegIsFixed(sale.total, sale.split, legs.rows, legs.shift);
      SplitRowsSum(sale, legs.rows, rows[|first|..]);
    } else {
      if sale.split.Some? { LegsEmpty(sale, legs.rows, rows[|first|..]); }
      assert rows[|first|..] == [];
      SumZero(rows[|first|..], CashIn());
    }
  }

  /** What a full return pays out, in cash and otherwise. */
  ghost function PaidOut(customers: map<Id, Customer>, sale: Sale, legs: Legs): Amount
  {
    match sale.payMethod
    case Cash => sale.total
    case Card => sale.total
    case Credit => OverpaidAtReturn(customers, sale, legs)
    case Installments => if Collected(sale) > 0 then Collected(sale) else 0
    case Split =>
      OverpaidAtReturn(customers, sale, legs)
        + if sale.split.Some? && SumMap(sale.split.value) > 0 then sale.total - CreditLegOf(sale.total, sale.split)
            else 0
    case Other(_) => 0
  }

  lemma PaidOutRows(customers: map<Id, Customer>, sale: Sale, legs: ScaledLegs, rows: seq<Payment>)
    requires SplitOk(sale) && 0 <= sale.total && AreScaledLegs(sale, legs)
    requires ReturnRows(sale, OverpaidAtReturn(customers, sale, legs.debt), legs.rows, rows)
    ensures Sum(rows, AmountOf()) == -PaidOut(customers, sale, legs.debt)
  {
    hide Sum, SumMap, RowPerLeg, OverpaidAtReturn, RemainingLegs, Collected, CreditLegOf;
    var over := OverpaidAtReturn(customers, sale, legs.debt);
    OverpaidMeans(customers, sale, legs.debt);
    if sale.payMethod == Split {
      SplitPaidOut(sale, over, legs, rows);
    } else if rows == [] {
      SumZero(rows, AmountOf());
    } else {
      SumOne(rows[0], AmountOf());
    }
  }

  lemma SplitPaidOut(sale: Sale, over: Amount, legs: ScaledLegs, rows: seq<Payment>)
    requires SplitOk(sale) && 0 <= sale.total && AreScaledLegs(sale, legs) && over >= 0
    requires sale.payMethod == Split && ReturnRows(sale, over, legs.rows, rows)
    ensures Sum(rows, AmountOf()) ==
              -over - if sale.split.Some? && SumMap(sale.split.value) > 0
                  then sale.total - CreditLegOf(sale.total, sale.split)
                      else 0
  {
    hide Sum, SumMap, RowPerLeg, CreditLegOf, RemainingLegs;
    var first := OverpaidRows(sale, over);
    SumGrows(first, rows, AmountOf());
    OverpaidSum(sale, over, AmountOf());
    if sale.split.Some? && SumMap(sale.split.value) > 0 {
      SplitRowsSum(sale, legs.rows, rows[|first|..]);
      CreditLegIs(sale.total, sale.split, legs.rows);
    } else {
      if sale.split.Some? { LegsEmpty(sale, legs.rows, rows[|first|..]); }
      assert rows[|first|..] == [];
      SumZero(rows[|first|..], AmountOf());
    }
  }

  /** A full return pays out no more than the invoice still stands for, except an installment invoice of which partial
      returns left less than was already collected: it pays all of that. */
  lemma PaysNoMoreIff(db: Db, id: Id, legs: ScaledLegs, db': Db)
    requires DbOk(db) && FullyReturned(db, id, legs, db')
    ensures var s := SaleAt(db, id);
            -Sum(db'.payments[|db.payments|..], AmountOf()) <= s.total
            <==> !(s.payMethod == Installments && Outstanding(s) < 0)
  {
    hide Sum, SumMap, RowPerLeg, CreditLegOf, ReturnRows, CustomersAfterReturn, ReturnMovements, ReturnCash,
         ReturnValue, Restocked, RemainingLegs, Collected, ShiftsOk, OrdersOk, ReferencesOk, Outstanding;
    var s := SaleAt(db, id);
    SaleStored(db, FindSale(db.sales, id).value);
    StoredSale(db, id);
    PaidOutRows(db.customers, s, legs, db'.payments[|db.payments|..]);
    OutstandingIs(s);
    CreditLegIs(s.total, s.split, legs.debt);
    OverWithinLeg(db.customers, s, legs.debt);
    if s.payMethod == Split {
      if s.split.Some? && SumMap(s.split.value) > 0 {
        LegWithinTotal(s.total, s.split.value, legs.debt);
      } else {
        NoLegs(s.total, s.split);
      }
    }
  }

  lemma OverWithinLeg(customers: map<Id, Customer>, sale: Sale, legs: Legs)
    requires sale.customer in customers ==> customers[sale.customer].debt >= 0
    requires sale.total >= 0
    ensures sale.payMethod == Split ==> OverpaidAtReturn(customers, sale, legs) <= Max0(LegOf(legs, Credit))
    ensures sale.payMethod == Credit ==> OverpaidAtReturn(customers, sale, legs) <= sale.total
  {
  }

  function Max0(n: int): int { if n > 0 then n else 0 }

  lemma NoLegs(total: Amount, split: Option<Legs>)
    requires split.None? || SumMap(split.value) <= 0
    ensures CreditLegOf(total, split) == 0
  {
    hide SumMap;
  }

  lemma LegWithinTotal(total: Amount, legs: Legs, remaining: Legs)
    requires NonNegative(legs) && SumMap(legs) > 0 && 0 <= total <= SumMap(legs)
             && RemainingLegs(total, Some(legs), remaining)
    ensures 0 <= LegOf(remaining, Credit) <= total
  {
    hide SumMap, RemainingLegs;
    var taker := RemainingLegsSumToTotal(total, legs, remaining);
    SumMapNonNegative(remaining);
  }

  /** A full return widens the drawer gap by the cash the shift's takings do not cover and, for a split invoice, by the
      cash handed back on credit the customer had already paid down. */
  lemma DrawerKeptIff(db: Db, id: Id, legs: ScaledLegs, db': Db)
    requires DbOk(db) && FullyReturned(db, id, legs, db')
    ensures ShiftsOk(db')
    ensures var s := SaleAt(db, id);
            var over := OverpaidAtReturn(db.customers, s, legs.debt);
            DrawerGap(db') == DrawerGap(db) + Uncovered(db.shifts, ReturnCash(s, over, legs.shift))
                                + (if ActiveShift(db.shifts).Some? && s.payMethod == Split then over else 0)
                              >= DrawerGap(db)
  {
    hide Sum, CustomersAfterReturn, ReturnMovements, ReturnCash, ReturnValue, AreScaledLegs, Restocked, ReturnRows,
         OverpaidAtReturn, DbOk;
    ReturnKeepsDb(db, id, legs, db');
    ShiftsAreOk(db);
    ShiftsAreOk(db');
    var s := SaleAt(db, id);
    var over := OverpaidAtReturn(db.customers, s, legs.debt);
    var rows := db'.payments[|db.payments|..];
    StoredSale(db, id);
    ReturnCashRows(db.customers, s, legs, rows);
    OverpaidMeans(db.customers, s, legs.debt);
    var unseen := if s.payMethod == Split then over else 0;
    DrawerAfter(db, db', ReturnValue(s, over, legs.shift), ReturnCash(s, over, legs.shift), unseen);
  }

  lemma ShiftsAreOk(db: Db)
    requires DbOk(db)
    ensures ShiftsOk(db)
  {
  }

  lemma StoredSale(db: Db, id: Id)
    requires DbOk(db) && FindSale(db.sales, id).Some?
    ensures SplitOk(SaleAt(db, id)) && 0 <= SaleAt(db, id).total
    ensures SaleAt(db, id).payMethod == Installments ==> Collected(SaleAt(db, id)) >= 0
  {
    var s := SaleAt(db, id);
    SaleStored(db, FindSale(db.sales, id).value);
    if s.payMethod == Installments {
      SumNonNegative(Schedule(s), EntryAmount(true));
    }
  }

  lemma DrawerAfter(db: Db, db': Db, value: Amount, cash: Amount, unseen: Amount)
    requires ShiftsOk(db) && ShiftsOk(db') && 0 <= cash <= value && unseen >= 0
    requires db.payments <= db'.payments && Sum(db'.payments[|db.payments|..], CashIn()) == -cash - unseen
    requires db'.shifts == if value > 0 then ShiftsAfterRefunds(db.shifts, value, cash, true) else db.shifts
    ensures DrawerGap(db') == DrawerGap(db) + Uncovered(db.shifts, cash)
                                + (if ActiveShift(db.shifts).Some? then unseen else 0) >= DrawerGap(db)
  {
    hide Sum;
    match ActiveShift(db.shifts)
    case None =>
    case Some(k) =>
      SameActive(db.shifts, db'.shifts);
      CashSince(db, db', k);
  }
}
