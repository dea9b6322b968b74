/** Inputs on which the code breaks a law of the ledger. Each lemma gives a well-formed database in which the law holds
    and a request that succeeds, after which it does not. */
module Failures {
  import opened Money
  import opened Domain
  import opened Sums
  import opened Refunds
  import opened SplitLegs
  import opened Store
  import opened Books
  import opened SaleSteps
  import opened PartialReturnSteps
  import opened CreditLegs
  import opened FullReturnSteps
  import opened PartialReturnLaws
  import FullReturnLaws
  import opened ShiftLaws

  const P := Id("product")
  const S := Id("sale")
  const C := Id("customer")

  const STOCKED: map<Id, Product> := map[P := Product(100, 0, 5000)]

  function Row(sale: Sale, amount: Amount, payMethod: PayMethod, note: Note): Payment
  {
    Payment(sale.id, sale.customer, amount, payMethod, note)
  }

  /** A database with one product, whose movements say what is in stock. */
  function BooksOf(who: Customer, sales: seq<Sale>, payments: seq<Payment>, movements: seq<Movement>,
                   shifts: seq<Shift>): Db
  {
    Db(STOCKED, map[C := who], sales, payments, movements, shifts, [], [])
  }

  /** A shift opened when `openedAt` rows had been written. */
  function ShiftOf(openedAt: nat, cashSales: Amount): Shift
  {
    Shift(Id("shift"), Id("staff"), true, openedAt, 0, cashSales, cashSales, cashSales, 0, 0, 0)
  }

  ghost predicate SaleFits(sale: Sale)
  {
    && sale.id != NoId && sale.customer == C
    && SaleOk(sale) && SplitOk(sale) && PlanOk(sale) && PaidOk(sale) && ScheduleOk(sale)
  }

  lemma BooksOk(who: Customer, sales: seq<Sale>, payments: seq<Payment>, movements: seq<Movement>, shifts: seq<Shift>)
    requires CustomerOk(who) && sales != [] && sales[0].id == S
    requires forall k :: 0 <= k < |sales| ==> SaleFits(sales[k])
    requires forall j, k :: 0 <= j < k < |sales| ==> sales[j].id != sales[k].id
    requires forall k :: 0 <= k < |payments| ==> payments[k].sale == S && payments[k].customer == C
    requires forall k :: 0 <= k < |movements| ==> movements[k].ref == S
    requires |shifts| <= 1
    requires forall k :: 0 <= k < |shifts| ==> shifts[k].openedAt <= |payments| && shifts[k].cashSales >= 0
    ensures var db := BooksOf(who, sales, payments, movements, shifts);
            DbOk(db) && FindSale(db.sales, S) == Some(0) && SaleAt(db, S) == sales[0]
  {
    hide SaleOk, SplitOk, PlanOk, PaidOk, ScheduleOk, FindSale;
    var db := BooksOf(who, sales, payments, movements, shifts);
    assert FindSale(sales, S) == Some(0);
    assert db.sales[0].id == S && SaleExists(db, S);
    forall i | 0 <= i < |db.sales| ensures StoredSaleOk(db, db.sales[i]) { assert SaleFits(sales[i]); }
  }

  /** What a partial return leaves behind, given its rows. */
  lemma AfterPartReturn(db: Db, id: Id, product: Id, qty: Milli, rows: seq<Payment>) returns (db': Db)
    requires CanReturnPart(db, id, product, qty) && product in db.products && SaleAt(db, id).total != 0
    requires var s, amount := SaleAt(db, id), RefundOf(db, id, product, qty);
             PartialRows(s, amount, PartialOverpaid(db.customers, s, amount), rows)
    ensures PartlyReturned(db, id, product, qty, db')
    ensures db'.sales == db.sales[FindSale(db.sales, id).value := ReturnPart(SaleAt(db, id), product, qty).value.sale]
    ensures db'.customers == CustomersAfterPart(db.customers, SaleAt(db, id), RefundOf(db, id, product, qty))
  {
    hide ReturnPart, PartialRows;
    var i := FindSale(db.sales, id).value;
    var s := db.sales[i];
    var r := ReturnPart(s, product, qty).value;
    var over := PartialOverpaid(db.customers, s, r.amount);
    db' := db.(
      sales := db.sales[i := r.sale],
      products := db.products[product := db.products[product].(stock := db.products[product].stock + qty)],
      movements := db.movements + [Movement(product, PartialReturnIn, qty, id)],
      customers := CustomersAfterPart(db.customers, s, r.amount),
      payments := db.payments + rows,
      shifts := ShiftsAfterRefunds(db.shifts, r.amount, PartialCash(s, over, r.amount), false));
    assert db'.payments[|db.payments|..] == rows;
  }

  // ----- an invoice returned twice -----

  /** One unit at 100 cents, sold for cash and returned in full. */
  function ReturnedSale(): Sale
  {
    Sale(S, C, [Line(P, 100, 1000, 0, 100, 0)], 100, 0, 0, 100, Cash, Returned, None, None, 0)
  }

  function ReturnedBooks(): Db
  {
    BooksOf(Customer(0, 0, 0, 0), [ReturnedSale()],
            [Row(ReturnedSale(), 100, Cash, SaleRow), Row(ReturnedSale(), -100, Cash, RefundRow)],
            [Movement(P, SaleOut, -1000, S), Movement(P, ReturnIn, 1000, S)], [])
  }

  lemma ReturnedBooksOk()
    ensures DbOk(ReturnedBooks()) && FindSale(ReturnedBooks().sales, S) == Some(0)
              && SaleAt(ReturnedBooks(), S) == ReturnedSale()
  {
    var db := ReturnedBooks();
    BooksOk(db.customers[C], db.sales, db.payments, db.movements, []);
  }

  lemma HalfOfIt()
    ensures ReturnPart(ReturnedSale(), P, 500).Ok? && ReturnPart(ReturnedSale(), P, 500).value.amount == 50
  {
  }

  lemma ReturnedBooksAgree()
    ensures FindSale(ReturnedBooks().sales, S) == Some(0) && InvoiceGap(ReturnedBooks(), 0) == 0
              && FlowGap(ReturnedBooks(), 0, P) == 0
    ensures C in ReturnedBooks().customers && PurchasesGap(ReturnedBooks(), C) == 0
  {
    var db := ReturnedBooks();
    assert db.payments == [db.payments[0]] + [db.payments[1]];
    SumConcat([db.payments[0]], [db.payments[1]], InvoiceRow(S));
    assert db.movements == [db.movements[0]] + [db.movements[1]];
    SumConcat([db.movements[0]], [db.movements[1]], SaleFlow(S, P));
    SumOne(db.payments[0], InvoiceRow(S));
    SumOne(db.payments[1], InvoiceRow(S));
    SumOne(db.movements[0], SaleFlow(S, P));
    SumOne(db.movements[1], SaleFlow(S, P));
    SumOne(db.sales[0], LiveTotal(C));
    assert FindSale(db.sales[..0], S) == None;
  }

  /** Half a unit of an invoice returned in full comes back again: more is paid out than ever came in, more goods come
      back than went out, purchases fall out of step, and the invoice can be returned in full once more. */
  lemma ReturnedComesBack() returns (db: Db, db': Db)
    ensures DbOk(db) && PartlyReturned(db, S, P, 500, db') && !Live(SaleAt(db, S)) && FindSale(db.sales, S) == Some(0)
    ensures InvoiceGap(db, 0) == 0 && Sum(db'.payments, InvoiceRow(S)) < 0
    ensures |db'.sales| == 1 && FlowGap(db, 0, P) == 0 && FlowGap(db', 0, P) > 0
    ensures C in db.customers && C in db'.customers && PurchasesGap(db, C) == 0 && PurchasesGap(db', C) != 0
    ensures CanReturn(db', S)
  {
    hide DbOk, ReturnPart, FlowGap, InvoiceGap, PurchasesGap, GoodsBack, CustomersAfterPart, Sum;
    db := ReturnedBooks();
    ReturnedBooksOk();
    ReturnedBooksAgree();
    HalfOfIt();
    db' := AfterPartReturn(db, S, P, 500, [Row(ReturnedSale(), -50, Cash, PartialReturnRow)]);
    SecondRefundOverdraws(db, S, P, 500, db');
    FlowKeptIff(db, S, P, 500, db', 0, P);
    PurchasesKeptIff(db, S, P, 500, db', C);
    ReturnableAgainIff(db, S, P, 500, db');
  }

  // ----- cash the shift's takings do not cover -----

  /** Sold for cash in an earlier shift. */
  function CashSale(): Sale
  {
    Sale(S, C, [Line(P, 100, 1000, 0, 100, 0)], 100, 0, 0, 100, Cash, Completed, None, None, 0)
  }

  function NextShift(): Db
  {
    BooksOf(Customer(0, 0, 100, 0), [CashSale()], [Row(CashSale(), 100, Cash, SaleRow)],
            [Movement(P, SaleOut, -1000, S)], [ShiftOf(1, 0)])
  }

  lemma NextShiftOk()
    ensures DbOk(NextShift()) && FindSale(NextShift().sales, S) == Some(0) && SaleAt(NextShift(), S) == CashSale()
    ensures DrawerGap(NextShift()) == 0 && ActiveShift(NextShift().shifts) == Some(0)
    ensures ReturnPart(CashSale(), P, 500).Ok? && ReturnPart(CashSale(), P, 500).value.amount == 50
  {
    var db := NextShift();
    BooksOk(db.customers[C], db.sales, db.payments, db.movements, db.shifts);
    assert ActiveShift(db.shifts) == Some(0);
    assert db.payments[1..] == [];
  }

  /** Half a unit sold before the shift was opened comes back: 50 cents leave the drawer, and its cash sales stay at
      zero. */
  lemma RefundOutrunsTakings() returns (db: Db, db': Db)
    ensures DbOk(db) && PartlyReturned(db, S, P, 500, db') && ShiftsOk(db')
    ensures DrawerGap(db) == 0 && DrawerGap(db') == 50
  {
    hide DbOk, ReturnPart, DrawerGap, GoodsBack, CustomersAfterPart, Sum;
    db := NextShift();
    NextShiftOk();
    db' := AfterPartReturn(db, S, P, 500, [Row(CashSale(), -50, Cash, PartialReturnRow)]);
    DrawerKeptIff(db, S, P, 500, db');
  }

  // ----- a split invoice -----

  const HALVES: map<PayMethod, Amount> := map[Cash := 50, Credit := 50]

  function SplitSale(): Sale
  {
    Sale(S, C, [Line(P, 100, 1000, 0, 100, 0)], 100, 0, 0, 100, Split, Completed, Some(HALVES), None, 0)
  }

  /** Sold half for cash and half on credit; the customer has paid the credit since. */
  function PaidDown(): Db
  {
    BooksOf(Customer(0, 0, 100, 0), [SplitSale()],
            [Row(SplitSale(), 50, Cash, SplitRow), Row(SplitSale(), 50, Credit, SplitRow),
                Row(SplitSale(), 50, Cash, UserRow)],
            [Movement(P, SaleOut, -1000, S)], [ShiftOf(0, 100)])
  }

  lemma HalvesSum()
    ensures SumMap(HALVES) == 100 && NonNegative(HALVES) && SplitOk(SplitSale())
    ensures CappedShares(100, HALVES, 100) == HALVES && CreditLegOf(100, Some(HALVES)) == 50
  {
    TakeKey(HALVES, Cash);
    TakeKey(HALVES - {Cash}, Credit);
    assert HALVES - {Cash} - {Credit} == map[];
    SumEmpty<PayMethod>();
  }

  lemma PaidDownOk()
    ensures DbOk(PaidDown()) && FindSale(PaidDown().sales, S) == Some(0) && SaleAt(PaidDown(), S) == SplitSale()
  {
    var db := PaidDown();
    HalvesSum();
    BooksOk(db.customers[C], db.sales, db.payments, db.movements, db.shifts);
  }

  lemma PaidDownAgrees()
    ensures ShiftsOk(PaidDown()) && DrawerGap(PaidDown()) == 0 && ActiveShift(PaidDown().shifts) == Some(0)
    ensures C in PaidDown().customers && DebtGap(PaidDown(), C) == 0
  {
    var db := PaidDown();
    var p := db.payments;
    HalvesSum();
    assert ActiveShift(db.shifts) == Some(0);
    assert p == [p[0]] + [p[1]] + [p[2]] && p[0..] == p;
    SumConcat([p[0]] + [p[1]], [p[2]], CashIn());
    SumConcat([p[0]], [p[1]], CashIn());
    SumConcat([p[0]] + [p[1]], [p[2]], Settles(C));
    SumConcat([p[0]], [p[1]], Settles(C));
    SumOne(p[0], CashIn());
    SumOne(p[1], CashIn());
    SumOne(p[2], CashIn());
    SumOne(p[0], Settles(C));
    SumOne(p[1], Settles(C));
    SumOne(p[2], Settles(C));
    SumOne(db.sales[0], LiveCredit(C));
  }

  /** What a full return leaves behind, given its rows. */
  lemma AfterFullReturn(db: Db, id: Id, legs: ScaledLegs, rows: seq<Payment>) returns (db': Db)
    requires CanReturn(db, id) && AreScaledLegs(SaleAt(db, id), legs)
    requires ReturnRows(SaleAt(db, id), OverpaidAtReturn(db.customers, SaleAt(db, id), legs.debt), legs.rows, rows)
    ensures FullyReturned(db, id, legs, db') && db.payments <= db'.payments && db'.payments[|db.payments|..] == rows
  {
    hide AreScaledLegs, ReturnRows, OverpaidAtReturn, ReturnValue, ReturnCash, CustomersAfterReturn;
    var i := FindSale(db.sales, id).value;
    var s := db.sales[i];
    var over := OverpaidAtReturn(db.customers, s, legs.debt);
    var value := ReturnValue(s, over, legs.shift);
    db' := db.(
      sales := db.sales[i := s.(status := Returned)],
      products := map p | p in db.products ::
          db.products[p].(stock := db.products[p].stock + Sum(s.lines, StillOut(p))),
      movements := db.movements + ReturnMovements(s.lines, db.products, id),
      customers := CustomersAfterReturn(db.customers, s, legs.debt),
      payments := db.payments + rows,
      shifts := if value > 0 then ShiftsAfterRefunds(db.shifts, value, ReturnCash(s, over, legs.shift), true)
          else db.shifts);
    assert db'.payments[|db.payments|..] == rows;
  }

  lemma HalvesRemain()
    ensures AreScaledLegs(SplitSale(), ScaledLegs(HALVES, HALVES, HALVES))
    ensures OverpaidAtReturn(PaidDown().customers, SplitSale(), HALVES) == 50
  {
    hide CappedShares, SumMap;
    HalvesSum();
  }

  lemma HalvesPaidOut()
    ensures ReturnRows(SplitSale(), 50, HALVES,
                       [Row(SplitSale(), -50, Cash, OverpaidCreditRow), Row(SplitSale(), -50, Cash, SplitRefundRow)])
  {
    var rows := [Row(SplitSale(), -50, Cash, OverpaidCreditRow), Row(SplitSale(), -50, Cash, SplitRefundRow)];
    var first := OverpaidRows(SplitSale(), 50);
    assert first == [rows[0]] && rows[1..] == [rows[1]];
    assert IsLegRow(rows[1], HALVES - {Credit}, SplitSale(), -1, SplitRefundRow);
    assert rows[1..][0].payMethod == Cash;
  }

  /** Returned in full, it pays 50 cents as the cash leg and 50 for the credit; the shift hears of the first only. */
  lemma OverpaidSplitCredit() returns (db: Db, legs: ScaledLegs, db': Db)
    ensures DbOk(db) && FullyReturned(db, S, legs, db') && ShiftsOk(db')
    ensures DrawerGap(db) == 0 && DrawerGap(db') == 50
  {
    hide DbOk, FullyReturned, DrawerGap, OverpaidAtReturn, AreScaledLegs, ReturnRows;
    db, legs := PaidDown(), ScaledLegs(HALVES, HALVES, HALVES);
    PaidDownOk();
    PaidDownAgrees();
    HalvesRemain();
    HalvesPaidOut();
    db' := AfterFullReturn(db, S, legs,
        [Row(SplitSale(), -50, Cash, OverpaidCreditRow), Row(SplitSale(), -50, Cash, SplitRefundRow)]);
    FullReturnLaws.DrawerKeptIff(db, S, legs, db');
    OnlyCashLegTold(db);
  }

  lemma OnlyCashLegTold(db: Db)
    requires db == PaidDown()
    ensures Uncovered(db.shifts, ReturnCash(SplitSale(), 50, HALVES)) == 0 && ActiveShift(db.shifts).Some?
  {
    assert ActiveShift(db.shifts) == Some(0);
  }

  /** Half of it partly returned: half of the credit goes, but no debt is left to take it from and no cash is paid for
      it. */
  lemma PaidCreditIsLost() returns (db: Db, db': Db)
    ensures DbOk(db) && PartlyReturned(db, S, P, 500, db')
    ensures C in db.customers && C in db'.customers && DebtGap(db, C) == 0 && DebtGap(db', C) != 0
  {
    hide DbOk, ReturnPart, DebtGap, PartialRows, GoodsBack, CustomersAfterPart, Sum, DebtUnharmed;
    db := PaidDown();
    PaidDownOk();
    PaidDownAgrees();
    HalfOfSplit();
    db' := AfterPartReturn(db, S, P, 500, [Row(SplitSale(), -25, Cash, PartialReturnRow)]);
    DebtKeptIff(db, S, P, 500, db', C);
    DebtIsHarmed();
  }

  lemma HalfOfSplit()
    ensures ReturnPart(SplitSale(), P, 500).Ok? && ReturnPart(SplitSale(), P, 500).value.amount == 50
    ensures PartialRows(SplitSale(), 50, 0, [Row(SplitSale(), -25, Cash, PartialReturnRow)])
  {
    var rows := [Row(SplitSale(), -25, Cash, PartialReturnRow)];
    assert PartialShares(SplitSale(), 50) == map[Cash := 25];
    assert IsLegRow(rows[0], PartialShares(SplitSale(), 50), SplitSale(), -1, PartialReturnRow);
  }

  /** Half of any total is on credit, rounded up. */
  lemma HalvesCredit(total: Amount)
    requires 0 <= total <= 100
    ensures CreditLegOf(total, Some(HALVES)) == total - total / 2
    ensures OtherLegs(HALVES) == {Cash}
  {
    hide CreditLegOf, SumMap;
    HalvesSum();
    CreditLegIsRest(HALVES, total);
    var others := Shares(total, HALVES - {Credit}, 100);
    assert others == map[Cash := total * 50 / 100];
    assert OthersShare(HALVES, total) == SumMap(others);
    TakeKey(others, Cash);
    assert others - {Cash} == map[];
    SumEmpty<PayMethod>();
  }

  lemma SplitIsHarmed()
    ensures SumMap(HALVES) == 100 && !SplitUnharmed(SplitSale(), 50, 0)
  {
    hide SumMap, CreditLegOf, OtherLegs, OthersShare;
    HalvesSum();
    HalvesCredit(100);
    assert |OtherLegs(HALVES)| == 1;
    assert CreditShare(SplitSale(), 50) == 25;
  }

  lemma DebtIsHarmed()
    ensures var db := PaidDown();
            CanReturnPart(db, S, P, 500) && C in db.customers && SaleAt(db, S).total != 0
                && !DebtUnharmed(db, S, P, 500, C)
  {
    hide ReturnPart, SumMap, Sum, SplitUnharmed;
    PaidDownOk();
    HalfOfSplit();
    SplitIsHarmed();
  }

  // ----- a split invoice returned unit by unit -----

  /** Four units at 25 on a split invoice, `n` of them back. */
  function UnitsLeft(who: Id, split: Legs, n: nat): Sale
  {
    Sale(S, who, [Line(P, 25, 4000, 0, 100, 1000 * n)], 100 - 25 * n, 0, 0, 100 - 25 * n, Split,
         if n == 0 then Completed else if n == 4 then Returned else PartiallyReturned, Some(split), None, 0)
  }

  /** Each unit is worth 25. */
  lemma UnitBack(who: Id, split: Legs, n: nat)
    requires n < 4
    ensures SaleOk(UnitsLeft(who, split, n))
    ensures ReturnPart(UnitsLeft(who, split, n), P, 1000) == Ok(Refunded(UnitsLeft(who, split, n + 1), 25))
  {
    var sale := UnitsLeft(who, split, n);
    var line := sale.lines[0];
    assert MulQty(25, 1000) == 25;
    OneLineRest(line, 100 - 25 * n, 1000 * n);
    assert Quo((100 - 25 * n) * 25, 100 - 25 * n) == 25 by { FloorShare(25, 100 - 25 * n, 100 - 25 * n); }
    var settled := Settle(sale, 0, 1000, 25);
    assert settled.lines == UnitsLeft(who, split, n + 1).lines;
    assert AllReturned(settled.lines) <==> settled.lines[0].returned >= settled.lines[0].qty;
    assert settled == UnitsLeft(who, split, n + 1);
    assert FirstLine(sale.lines, P) == Some(0);
  }

  lemma OneLineRest(line: Line, rest: Amount, returned: Milli)
    requires line.product == P && LineRest(line, returned) == rest
    ensures RestOfInvoice([line], P, returned) == rest
  {
    SumOne(line, RestOf(P, returned));
  }

  /** Paid in cash as the only leg, the second unit to come back, worth 25, is paid out as 33. */
  lemma SecondReturnOverpays()
    ensures var sale := UnitsLeft(NoId, map[Cash := 100], 0);
            var first := ReturnPart(sale, P, 1000);
            && SaleOk(sale) && Untouched(sale) && first.Ok? && first.value.amount == 25
            && var second := ReturnPart(first.value.sale, P, 1000);
               && second.Ok? && second.value.amount == 25
               && first.value.sale.split.Some? && first.value.sale.total == 75
               && PartialShares(first.value.sale, 25) == map[Cash := 33]
  {
    hide ReturnPart;
    UnitBack(NoId, map[Cash := 100], 0);
    UnitBack(NoId, map[Cash := 100], 1);
    assert PartialShares(UnitsLeft(NoId, map[Cash := 100], 1), 25) == map[Cash := 33];
  }

  // Half in cash and half on credit, the credit still owed.

  function OtherCredit(): Sale
  {
    Sale(Id("other"), C, [Line(P, 500, 1000, 0, 500, 0)], 500, 0, 0, 500, Credit, Pending, None, None, 0)
  }

  /** One unit is back, which took 12 off the debt; another invoice is owed in full. */
  function OneUnitBack(): Db
  {
    BooksOf(Customer(538, 0, 575, 0), [UnitsLeft(C, HALVES, 1), OtherCredit()], [], [], [])
  }

  lemma HalvesLeft()
    ensures CreditLegOf(75, Some(HALVES)) == 38 && CreditLegOf(50, Some(HALVES)) == 25
    ensures CreditShare(UnitsLeft(C, HALVES, 1), 25) == 16
  {
    hide CreditLegOf;
    HalvesCredit(75);
    HalvesCredit(50);
  }

  lemma OneUnitBackOk()
    ensures DbOk(OneUnitBack()) && FindSale(OneUnitBack().sales, S) == Some(0)
    ensures SaleAt(OneUnitBack(), S) == UnitsLeft(C, HALVES, 1)
  {
    hide DbOk, Sum, SumMap, ReturnPart;
    var db := OneUnitBack();
    UnitBack(C, HALVES, 1);
    HalvesSum();
    assert LineOk(OtherCredit().lines[0]);
    BooksOk(db.customers[C], db.sales, [], [], []);
  }

  lemma OneUnitBackAgrees()
    ensures C in OneUnitBack().customers && DebtGap(OneUnitBack(), C) == 0
  {
    hide Sum, CreditLegOf;
    var db := OneUnitBack();
    HalvesLeft();
    SumOne(db.sales[0], LiveCredit(C));
    assert db.sales == [db.sales[0]] + [db.sales[1]];
    SumAppend([db.sales[0]], db.sales[1], LiveCredit(C));
    SumZero(db.payments, Settles(C));
  }

  lemma SecondUnitRows()
    ensures PartialRows(UnitsLeft(C, HALVES, 1), 25, 0, [Row(UnitsLeft(C, HALVES, 1), -16, Cash, PartialReturnRow)])
  {
    var sale := UnitsLeft(C, HALVES, 1);
    var rows := [Row(sale, -16, Cash, PartialReturnRow)];
    assert PartialShares(sale, 25) == map[Cash := 16];
    assert IsLegRow(rows[0], PartialShares(sale, 25), sale, -1, PartialReturnRow);
  }

  /** The second unit takes 16 off the debt where the credit leg loses 13: what is left of the debt no longer covers
      both invoices. */
  lemma SecondShareOvertakes() returns (db: Db, db': Db)
    ensures DbOk(db) && PartlyReturned(db, S, P, 1000, db')
    ensures C in db.customers && C in db'.customers && DebtGap(db, C) == 0 && DebtGap(db', C) < 0
    ensures db'.sales == [UnitsLeft(C, HALVES, 2), OtherCredit()] && db'.customers[C].debt == 522
    ensures OnCredit(UnitsLeft(C, HALVES, 2)) == 25 && OnCredit(OtherCredit()) == 500
  {
    hide DbOk, ReturnPart, DebtGap, GoodsBack, Sum, CreditLegOf, CreditShare, PartialRows, PartlyReturned,
         CustomersAfterPart, FindSale;
    db := OneUnitBack();
    OneUnitBackOk();
    OneUnitBackAgrees();
    HalvesLeft();
    UnitBack(C, HALVES, 1);
    SecondUnitRows();
    NoneOverpaid(db);
    SixteenOff(db.customers);
    db' := AfterPartReturn(db, S, P, 1000, [Row(UnitsLeft(C, HALVES, 1), -16, Cash, PartialReturnRow)]);
    DebtMoves(db, S, P, 1000, db', C);
  }

  lemma SixteenOff(customers: map<Id, Customer>)
    requires C in customers && customers[C].debt == 538
    ensures C in CustomersAfterPart(customers, UnitsLeft(C, HALVES, 1), 25)
    ensures CustomersAfterPart(customers, UnitsLeft(C, HALVES, 1), 25)[C].debt == 522
  {
    hide Div, CreditShare;
    HalvesLeft();
  }

  lemma NoneOverpaid(db: Db)
    ensures PartialOverpaid(db.customers, UnitsLeft(C, HALVES, 1), 25) == 0
  {
  }

  function Units(n: nat): seq<(Id, Milli)> { seq(n, _ => (P, 1000)) }

  lemma {:induction false} UnitsBack(n: nat)
    requires n <= 4
    ensures RunParts(UnitsLeft(C, HALVES, 0), Units(n)).Some?
    ensures var run := RunParts(UnitsLeft(C, HALVES, 0), Units(n)).value;
            run.sale == UnitsLeft(C, HALVES, n) && |run.refunds| == n && forall k :: 0 <= k < n ==> run.refunds[k] == 25
    ensures AskedOffDebt(UnitsLeft(C, HALVES, 0), Units(n)) ==
              if n == 0 then 0 else if n == 1 then 12 else if n == 2 then 28 else if n == 3 then 53 else 103
  {
    hide ReturnPart;
    if n > 0 {
      assert Units(n)[..n - 1] == Units(n - 1);
      UnitsBack(n - 1);
      UnitBack(C, HALVES, n - 1);
    }
  }

  /** All four units back, one by one, ask 103 off the debt for a credit leg of 50. */
  lemma PiecesAskTwice()
    ensures SaleOk(UnitsLeft(C, HALVES, 0)) && Untouched(UnitsLeft(C, HALVES, 0)) && LegOf(HALVES, Credit) == 50
    ensures RunParts(UnitsLeft(C, HALVES, 0), Units(4)).Some? && AskedOffDebt(UnitsLeft(C, HALVES, 0), Units(4)) == 103
  {
    hide RunParts, ReturnPart;
    UnitBack(C, HALVES, 0);
    UnitsBack(4);
  }

  // ----- an installment invoice that takes from another -----

  /** Sold by installments: `down` at once, and one installment of the rest. */
  function PlanSale(id: Id, price: Amount, qty: Milli, total: Amount, down: Amount): Sale
  {
    Sale(id, C, [Line(P, price, qty, 0, total, 0)], total, 0, 0, total, Installments, Pending, None,
         Some(Plan(down, Some([Installment(1, None, total - down, false)]))), 0)
  }

  lemma PlanFits(id: Id, price: Amount, qty: Milli, total: Amount, down: Amount)
    requires id != NoId && qty > 0 && 0 <= down <= total
    ensures var sale := PlanSale(id, price, qty, total, down); SaleFits(sale) && Owes(sale) == total - down
  {
    hide Sum;
    var sale := PlanSale(id, price, qty, total, down);
    var entry := Installment(1, None, total - down, false);
    assert Schedule(sale) == [entry];
    SumOne(entry, EntryAmount(true));
    SumOne(entry, ScheduledAmount());
    assert LineOk(sale.lines[0]);
  }

  /** Two units at 150; 200 down, an installment of 100 to come. */
  function SmallPlan(): Sale { PlanSale(S, 150, 2000, 300, 200) }

  function OtherPlan(): Sale { PlanSale(Id("other"), 500, 1000, 500, 0) }

  function TwoPlans(): Db { BooksOf(Customer(0, 600, 800, 0), [SmallPlan(), OtherPlan()], [], [], []) }

  lemma PlansOwe()
    ensures SaleFits(SmallPlan()) && SaleFits(OtherPlan()) && Owes(SmallPlan()) == 100 && Owes(OtherPlan()) == 500
  {
    PlanFits(S, 150, 2000, 300, 200);
    PlanFits(Id("other"), 500, 1000, 500, 0);
  }

  lemma TwoPlansOk()
    ensures DbOk(TwoPlans()) && FindSale(TwoPlans().sales, S) == Some(0) && SaleAt(TwoPlans(), S) == SmallPlan()
  {
    hide DbOk, SaleFits;
    PlansOwe();
    var db := TwoPlans();
    BooksOk(db.customers[C], db.sales, [], [], []);
  }

  lemma TwoPlansAgree()
    ensures C in TwoPlans().customers && InstallmentGap(TwoPlans(), C) == 0
  {
    hide Outstanding, SaleFits, Sum;
    PlansOwe();
    var db := TwoPlans();
    SumOne(db.sales[0], LiveInstallments(C));
    assert db.sales == [db.sales[0]] + [db.sales[1]];
    SumAppend([db.sales[0]], db.sales[1], LiveInstallments(C));
  }

  lemma OneUnitOfPlan()
    ensures ReturnPart(SmallPlan(), P, 1000).Ok? && ReturnPart(SmallPlan(), P, 1000).value.amount == 150
  {
  }

  /** One unit of the small invoice comes back: 150 come off the installment debt where the invoice owed 100, and the
      450 left are less than the other invoice alone still owes. */
  lemma RefundTakesFromAnother() returns (db: Db, db': Db)
    ensures DbOk(db) && PartlyReturned(db, S, P, 1000, db')
    ensures C in db.customers && C in db'.customers && InstallmentGap(db, C) == 0 && InstallmentGap(db', C) != 0
    ensures db'.customers[C].installmentDebt == 450 && |db'.sales| == 2 && db'.sales[1] == OtherPlan()
              && Owes(OtherPlan()) == 500
  {
    hide DbOk, ReturnPart, InstallmentGap, GoodsBack, Sum, Outstanding, SaleFits;
    db := TwoPlans();
    TwoPlansOk();
    TwoPlansAgree();
    OneUnitOfPlan();
    PlansOwe();
    db' := AfterPartReturn(db, S, P, 1000, [Row(SmallPlan(), -150, Installments, PartialReturnRow)]);
    InstallmentsKeptIff(db, S, P, 1000, db', C);
  }

  // ----- a full return that pays more than the invoice stands for -----

  /** The small invoice with one unit back: total 150, of which 200 were collected. */
  function OverCollected(): Sale
  {
    SmallPlan().(lines := [Line(P, 150, 2000, 0, 300, 1000)], subtotal := 150, total := 150, status :=
        PartiallyReturned)
  }

  function OverCollectedBooks(): Db { BooksOf(Customer(0, 0, 150, 0), [OverCollected()], [], [], []) }

  lemma OverCollectedOk()
    ensures DbOk(OverCollectedBooks()) && FindSale(OverCollectedBooks().sales, S) == Some(0)
    ensures SaleAt(OverCollectedBooks(), S) == OverCollected() && Outstanding(OverCollected()) == -50
  {
    hide DbOk, Sum;
    var sale := OverCollected();
    var entry := Installment(1, None, 100, false);
    assert Schedule(sale) == [entry];
    SumOne(entry, EntryAmount(true));
    assert LineOk(sale.lines[0]);
    BooksOk(OverCollectedBooks().customers[C], [sale], [], [], []);
  }

  /** Returned in full, it pays back all 200 for an invoice that stands for 150. */
  lemma FullReturnPaysMore() returns (db: Db, legs: ScaledLegs, db': Db)
    ensures DbOk(db) && FullyReturned(db, S, legs, db') && db.payments <= db'.payments
    ensures SaleAt(db, S).total == 150 && -Sum(db'.payments[|db.payments|..], AmountOf()) == 200
  {
    hide DbOk, FullyReturned, Sum, Outstanding, RowPerLeg;
    db, legs := OverCollectedBooks(), ScaledLegs(map[], map[], map[]);
    OverCollectedOk();
    OutstandingIs(OverCollected());
    var row := Row(OverCollected(), -200, Cash, InstallmentRefundRow);
    db' := AfterFullReturn(db, S, legs, [row]);
    SumOne(row, AmountOf());
  }

  // ----- a shift told of another leg than was paid -----

  const VOUCHER := Other("voucher")
  const CENTS: map<PayMethod, Amount> := map[Card := 1, VOUCHER := 1]
  const TO_CARD: map<PayMethod, Amount> := map[Card := 1, VOUCHER := 0]
  const TO_VOUCHER: map<PayMethod, Amount> := map[Card := 0, VOUCHER := 1]

  /** Two units at a cent, one paid by card and one by voucher; one is back. */
  function OneCentLeft(): Sale
  {
    Sale(S, C, [Line(P, 1, 2000, 0, 2, 1000)], 1, 0, 0, 1, Split, PartiallyReturned, Some(CENTS), None, 0)
  }

  function OneCentBooks(): Db { BooksOf(Customer(0, 0, 1, 0), [OneCentLeft()], [], [], [ShiftOf(0, 100)]) }

  lemma CentsSum()
    ensures SumMap(CENTS) == 2 && NonNegative(CENTS) && SplitOk(OneCentLeft())
    ensures CappedShares(1, CENTS, 2) == map[Card := 0, VOUCHER := 0]
    ensures SumMap<PayMethod>(map[Card := 0, VOUCHER := 0]) == 0
  {
    TakeKey(CENTS, Card);
    assert CENTS - {Card} == map[VOUCHER := 1];
    TakeKey(CENTS - {Card}, VOUCHER);
    assert CENTS - {Card} - {VOUCHER} == map[];
    SumEmpty<PayMethod>();
    AllZero(map[Card := 0, VOUCHER := 0]);
  }

  lemma EitherTakesIt()
    ensures AreScaledLegs(OneCentLeft(), ScaledLegs(TO_CARD, TO_VOUCHER, TO_CARD))
  {
    hide SumMap, CappedShares;
    CentsSum();
    var base := CappedShares(1, CENTS, 2);
    assert TakesRemainder(Card, base) && TakesRemainder(VOUCHER, base);
    assert TO_CARD == base[Card := base[Card] + 1] && TO_VOUCHER == base[VOUCHER := base[VOUCHER] + 1];
  }

  lemma VoucherPaidOut(over: Amount)
    requires over == OverpaidAtReturn(OneCentBooks().customers, OneCentLeft(), TO_CARD)
    ensures ReturnRows(OneCentLeft(), over, TO_VOUCHER, [Row(OneCentLeft(), -1, VOUCHER, SplitRefundRow)])
  {
    var rows := [Row(OneCentLeft(), -1, VOUCHER, SplitRefundRow)];
    assert rows[0..] == rows;
    assert IsLegRow(rows[0], TO_VOUCHER - {Credit}, OneCentLeft(), -1, SplitRefundRow);
  }

  /** Returned in full, the cent left is paid back by voucher while the shift is told of a card refund. */
  lemma ToldOfAnotherLeg() returns (db: Db, legs: ScaledLegs, db': Db)
    ensures DbOk(db) && FullyReturned(db, S, legs, db')
    ensures db.payments == [] && db'.payments == [Row(OneCentLeft(), -1, VOUCHER, SplitRefundRow)]
    ensures |db.shifts| == |db'.shifts| == 1 && db.shifts[0].totalSales == 100 && db'.shifts[0].totalSales == 99
  {
    hide DbOk, FullyReturned, AreScaledLegs, ReturnRows, OverpaidAtReturn, Sum, SumMap;
    db, legs := OneCentBooks(), ScaledLegs(TO_CARD, TO_VOUCHER, TO_CARD);
    CentsSum();
    BooksOk(db.customers[C], db.sales, [], [], db.shifts);
    EitherTakesIt();
    var row := Row(OneCentLeft(), -1, VOUCHER, SplitRefundRow);
    VoucherPaidOut(OverpaidAtReturn(db.customers, OneCentLeft(), TO_CARD));
    db' := AfterFullReturn(db, S, legs, [row]);
    SumOne(row, Told(true));
    SumOne(row, ToldCash(true));
    ReturnTold(db, S, legs, db');
  }
}
