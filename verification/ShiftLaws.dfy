/** What each operation tells the shifts table, read off the payment rows it wrote. */
module ShiftLaws {
  import opened Money
  import opened Domain
  import opened Sums
  import opened Refunds
  import opened SplitLegs
  import opened Store
  import opened Books
  import opened SaleSteps
  import opened SellingSteps
  import opened SaleLaws
  import opened PartialReturnSteps
  import opened PartialReturnLaws
  import opened FullReturnSteps
  import opened FullReturnLaws
  import opened PaymentSteps

  /** Every closed shift stays as it is; the open one gains these amounts and this many sales. */
  ghost predicate Gains(shifts: seq<Shift>, shifts': seq<Shift>, total: Amount, cash: Amount, count: int)
  {
    |shifts'| == |shifts| &&
    forall k :: 0 <= k < |shifts| ==>
      shifts'[k] == if !shifts[k].isOpen then shifts[k]
                    else shifts[k].(totalSales := shifts[k].totalSales + total,
                                    cashSales := shifts[k].cashSales + cash,
                                    expectedBalance := shifts[k].expectedBalance + cash,
                                    salesCount := shifts[k].salesCount + count)
  }

  /** Every closed shift stays as it is; the open one loses these amounts and, if any, this many sales, each down to
      zero at least. */
  ghost predicate Loses(shifts: seq<Shift>, shifts': seq<Shift>, total: Amount, cash: Amount, count: nat)
  {
    |shifts'| == |shifts| &&
    forall k :: 0 <= k < |shifts| ==>
      shifts'[k] == if !shifts[k].isOpen then shifts[k]
                    else shifts[k].(totalSales := Max0(shifts[k].totalSales - total),
                                    cashSales := Max0(shifts[k].cashSales - cash),
                                    expectedBalance := Max0(shifts[k].expectedBalance - cash),
                                    salesCount := if count > 0 then Max0(shifts[k].salesCount - count)
                                                  else shifts[k].salesCount)
  }

  lemma CountedIn(db: Db, shifts': seq<Shift>, total: Amount, cash: Amount, isNewSale: bool)
    requires ShiftsOk(db) && shifts' == ShiftsAfterSales(db.shifts, total, cash, isNewSale)
    ensures Gains(db.shifts, shifts', total, cash, if isNewSale then 1 else 0)
  {
  }

  lemma CountedOut(db: Db, shifts': seq<Shift>, total: Amount, cash: Amount, isFullReturn: bool)
    requires ShiftsOk(db) && shifts' == ShiftsAfterRefunds(db.shifts, total, cash, isFullReturn)
    ensures Loses(db.shifts, shifts', total, cash, if isFullReturn then 1 else 0)
  {
  }

  // ----- what comes in -----

  /** A sale counts as one, for the sum of its rows; the cash among them is what the drawer gains. */
  lemma SaleTold(db: Db, cart: Sale, till: Till, db': Db)
    requires DbOk(db) && Sold(db, cart, till, db')
    ensures db.payments <= db'.payments
    ensures var rows := db'.payments[|db.payments|..];
            Gains(db.shifts, db'.shifts, Sum(rows, AmountOf()), Sum(rows, CashIn()), 1)
  {
    hide Sum, SaleRows, SaleMovements, CustomersAfterSale, CashTaken, StockTaken, Sellable, SplitAccepted, PlanAccepted,
         Vat, ShiftsOk, SalesTableOk, ReferencesOk, OrdersOk, CustomerOk, Gains;
    var sale := Invoice(cart, till);
    InvoiceTotals(cart, till);
    RowsSumToTotal(sale, db'.payments[|db.payments|..]);
    CountedIn(db, db'.shifts, sale.total, CashTaken(sale), true);
  }

  /** A payment counts as no sale and adds nothing to the total; only cash reaches the drawer. */
  lemma RecordTold(db: Db, q: PaymentRequest, db': Db)
    requires DbOk(db) && Recorded(db, q, db')
    ensures Gains(db.shifts, db'.shifts, 0, Sum(db'.payments[|db.payments|..], CashIn()), 0)
  {
    hide Sum, DbOk, Gains;
    var row := Payment(q.sale, q.customer, q.amount, q.payMethod, UserRow);
    assert db'.payments[|db.payments|..] == [row];
    SumOne(row, CashIn());
    PaymentTold(db, db'.shifts, q.amount, q.payMethod);
  }

  lemma CollectTold(db: Db, q: Collection, db': Db)
    requires DbOk(db) && Collects(db, q, db')
    ensures Gains(db.shifts, db'.shifts, 0, Sum(db'.payments[|db.payments|..], CashIn()), 0)
  {
    hide Sum, DbOk, Gains;
    var row := db'.payments[|db.payments|];
    assert db'.payments[|db.payments|..] == [row];
    SumOne(row, CashIn());
    PaymentTold(db, db'.shifts, row.amount, q.payMethod);
  }

  lemma PaymentTold(db: Db, shifts': seq<Shift>, amount: Amount, m: PayMethod)
    requires DbOk(db)
    requires shifts' == if m == Cash then ShiftsAfterSales(db.shifts, 0, amount, false) else db.shifts
    ensures Gains(db.shifts, shifts', 0, if m == Cash then amount else 0, 0)
  {
    hide SalesTableOk, ReferencesOk, OrdersOk, CustomerOk;
    if m == Cash { CountedIn(db, shifts', 0, amount, false); }
  }

  // ----- what goes out -----

  /** A partial return takes off what the invoice loses, and the cash it handed back; the sale still counts. */
  lemma PartTold(db: Db, id: Id, product: Id, qty: Milli, db': Db)
    requires DbOk(db) && PartlyReturned(db, id, product, qty, db')
    ensures db.payments <= db'.payments && |db'.sales| == |db.sales|
    ensures var i := FindSale(db.sales, id).value;
            Loses(db.shifts, db'.shifts, db.sales[i].total - db'.sales[i].total,
                  -Sum(db'.payments[|db.payments|..], CashIn()), 0)
  {
    hide Sum, ReturnPart, PartialRows, CustomersAfterPart, PartialCash, PartialOverpaid, SaleOk, SplitOk, GoodsBack,
         ReferencesOk, ShiftsOk, SalesTableOk, OrdersOk, Loses;
    var i := FindSale(db.sales, id).value;
    var s := db.sales[i];
    SaleStored(db, i);
    PartialReturnStep(s, product, qty);
    var amount := ReturnPart(s, product, qty).value.amount;
    PartialCashRows(s, db.customers, amount, db'.payments[|db.payments|..]);
    CountedOut(db, db'.shifts, amount, PartialCash(s, PartialOverpaid(db.customers, s, amount), amount), false);
  }

  /** What a row of a full return takes off the shift: cash and card, but not the cash for a split invoice's overpaid
      credit. */
  ghost function Told(isSplit: bool): Payment -> int
  {
    (p: Payment) =>
      if (p.payMethod == Cash || p.payMethod == Card) && !(isSplit && p.note.OverpaidCreditRow?) then p.amount else 0
  }

  ghost function ToldCash(isSplit: bool): Payment -> int
  {
    (p: Payment) => if p.payMethod == Cash && !(isSplit && p.note.OverpaidCreditRow?) then p.amount else 0
  }

  /** The rows and the shift each ask for the legs; the card leg may come out differently, as Go visits the map in any
      order. */
  ghost function CardDrift(sale: Sale, legs: ScaledLegs): Amount
  {
    if sale.payMethod == Split then LegOf(legs.shift, Card) - LegOf(legs.rows, Card) else 0
  }

  lemma ReturnRowsTold(customers: map<Id, Customer>, sale: Sale, legs: ScaledLegs, rows: seq<Payment>)
    requires SplitOk(sale) && 0 <= sale.total && AreScaledLegs(sale, legs)
    requires ReturnRows(sale, OverpaidAtReturn(customers, sale, legs.debt), legs.rows, rows)
    requires sale.payMethod == Installments ==> Collected(sale) >= 0
    ensures var over, isSplit := OverpaidAtReturn(customers, sale, legs.debt), sale.payMethod == Split;
            && -Sum(rows, ToldCash(isSplit)) == ReturnCash(sale, over, legs.shift) >= 0
            && -Sum(rows, Told(isSplit)) + CardDrift(sale, legs) == ReturnValue(sale, over, legs.shift) >= 0
  {
    hide Sum, SumMap, RowPerLeg, OverpaidAtReturn, RemainingLegs, Collected;
    var over := OverpaidAtReturn(customers, sale, legs.debt);
    OverpaidMeans(customers, sale, legs.debt);
    if sale.payMethod == Split {
      SplitRowsTold(sale, over, legs, rows);
    } else if rows == [] {
      SumZero(rows, Told(false));
      SumZero(rows, ToldCash(false));
    } else {
      SumOne(rows[0], Told(false));
      SumOne(rows[0], ToldCash(false));
    }
  }

  lemma SplitRowsTold(sale: Sale, over: Amount, legs: ScaledLegs, rows: seq<Payment>)
    requires SplitOk(sale) && 0 <= sale.total && AreScaledLegs(sale, legs) && over >= 0
    requires sale.payMethod == Split && ReturnRows(sale, over, legs.rows, rows)
    ensures LegOf(legs.shift, Cash) >= 0 && LegOf(legs.shift, Card) >= 0
    ensures -Sum(rows, ToldCash(true)) == LegOf(legs.shift, Cash)
    ensures -Sum(rows, Told(true)) == LegOf(legs.shift, Cash) + LegOf(legs.rows, Card)
  {
    hide Sum, SumMap, RowPerLeg, RemainingLegs;
    var first := OverpaidRows(sale, over);
    var rest := rows[|first|..];
    SumGrows(first, rows, Told(true));
    SumGrows(first, rows, ToldCash(true));
    SumZero(first, Told(true));
    SumZero(first, ToldCash(true));
    CashLegIsFixed(sale.total, sale.split, legs.rows, legs.shift);
    if sale.split.Some? && SumMap(sale.split.value) > 0 {
      var t := RemainingLegsSumToTotal(sale.total, sale.split.value, legs.shift);
      t := RemainingLegsSumToTotal(sale.total, sale.split.value, legs.rows);
      LegRowsTold(sale, legs.rows, rest);
    } else {
      if sale.split.Some? { LegsEmpty(sale, legs.rows, rest); }
      NoneRemain(sale, legs);
      SumZero(rest, Told(true));
      SumZero(rest, ToldCash(true));
    }
  }

  lemma NoneRemain(sale: Sale, legs: ScaledLegs)
    requires AreScaledLegs(sale, legs) && (sale.split.Some? ==> SumMap(sale.split.value) <= 0)
    ensures legs.rows == map[] && legs.shift == map[]
  {
  }

  lemma LegRowsTold(sale: Sale, legs: Legs, rows: seq<Payment>)
    requires NonNegative(legs) && RowPerLeg(rows, legs - {Credit}, sale, -1, SplitRefundRow)
    ensures -Sum(rows, ToldCash(true)) == LegOf(legs, Cash)
    ensures -Sum(rows, Told(true)) == LegOf(legs, Cash) + LegOf(legs, Card)
  {
    hide Sum, RowPerLeg;
    LegRowsNote(rows, legs - {Credit}, sale, -1, SplitRefundRow);
    LegRowsOf(rows, legs - {Credit}, sale, -1, SplitRefundRow, Cash);
    LegRowsOf(rows, legs - {Credit}, sale, -1, SplitRefundRow, Card);
    SumSame(rows, ToldCash(true), rows, ByMethod(Cash));
    SumPlus(rows, Told(true), ByMethod(Cash), ByMethod(Card));
  }

  /** A full return takes off the shift what its cash and card rows hand back, and the sale itself - unless they hand
      back nothing: then the shift is not told at all. */
  lemma ReturnTold(db: Db, id: Id, legs: ScaledLegs, db': Db)
    requires DbOk(db) && FullyReturned(db, id, legs, db')
    ensures db.payments <= db'.payments
    ensures var s, rows := SaleAt(db, id), db'.payments[|db.payments|..];
            var value := -Sum(rows, Told(s.payMethod == Split)) + CardDrift(s, legs);
            if value > 0 then Loses(db.shifts, db'.shifts, value, -Sum(rows, ToldCash(s.payMethod == Split)), 1)
            else db'.shifts == db.shifts
    ensures var s := SaleAt(db, id); s.payMethod != Split || CardLegFixed(s.total, s.split) ==> CardDrift(s, legs) == 0
  {
    hide Sum, CustomersAfterReturn, ReturnMovements, ReturnCash, ReturnValue, RemainingLegs, Restocked, ReturnRows,
         OverpaidAtReturn, SalesTableOk, ReferencesOk, OrdersOk, CustomerOk, ShiftsOk, Loses, CardLegFixed;
    var s := SaleAt(db, id);
    var over := OverpaidAtReturn(db.customers, s, legs.debt);
    StoredSale(db, id);
    ReturnRowsTold(db.customers, s, legs, db'.payments[|db.payments|..]);
    if ReturnValue(s, over, legs.shift) > 0 {
      CountedOut(db, db'.shifts, ReturnValue(s, over, legs.shift), ReturnCash(s, over, legs.shift), true);
    }
    CardLegFixedIff(s.total, s.split);
  }

  // ----- when the two calls agree -----

  /** Nothing is left over by the floor shares, or the card leg cannot be the one to take it or must be. */
  ghost predicate CardLegFixed(total: Amount, split: Option<Legs>)
  {
    split.None? || SumMap(split.value) <= 0 ||
    var legs := split.value;
    || LegOf(legs, Credit) > 0 || LegOf(legs, Cash) > 0 || LegOf(legs, Card) <= 0
    || (forall m :: m in legs && legs[m] > 0 ==> m == Card)
    || SumMap(CappedShares(total, legs, SumMap(legs))) >= total
  }

  /** Exactly then every call gives the same card leg. */
  lemma CardLegFixedIff(total: Amount, split: Option<Legs>)
    ensures CardLegFixed(total, split) <==>
              forall a, b :: RemainingLegs(total, split, a) && RemainingLegs(total, split, b) ==>
                LegOf(a, Card) == LegOf(b, Card)
  {
    hide SumMap, RemainingLegs, CardLegFixed;
    if CardLegFixed(total, split) {
      forall a, b | RemainingLegs(total, split, a) && RemainingLegs(total, split, b)
        ensures LegOf(a, Card) == LegOf(b, Card) {
        FixedCardLeg(total, split, a, b);
      }
    } else {
      var a, b := TwoCardLegs(total, split);
    }
  }

  lemma FixedCardLeg(total: Amount, split: Option<Legs>, a: Legs, b: Legs)
    requires CardLegFixed(total, split) && RemainingLegs(total, split, a) && RemainingLegs(total, split, b)
    ensures LegOf(a, Card) == LegOf(b, Card)
  {
    hide SumMap, CappedShareOf;
  }

  lemma TwoCardLegs(total: Amount, split: Option<Legs>) returns (a: Legs, b: Legs)
    requires !CardLegFixed(total, split)
    ensures RemainingLegs(total, split, a) && RemainingLegs(total, split, b) && LegOf(a, Card) != LegOf(b, Card)
  {
    hide SumMap, CappedShareOf;
    var legs := split.value;
    var base := CappedShares(total, legs, SumMap(legs));
    var diff := total - SumMap(base);
    var m :| m in legs && legs[m] > 0 && m != Card;
    a, b := base[Card := base[Card] + diff], base[m := base[m] + diff];
    assert TakesRemainder(Card, base) && TakesRemainder(m, base);
  }

  /** Otherwise they differ by less than a cent for each leg. */
  lemma CardDriftIsSmall(sale: Sale, legs: ScaledLegs)
    requires SplitOk(sale) && 0 <= sale.total && AreScaledLegs(sale, legs)
    ensures CardDrift(sale, legs) == 0 || -|legs.shift| < CardDrift(sale, legs) < |legs.shift|
  {
    hide SumMap, RemainingLegs, Quo;
    if sale.payMethod == Split && sale.split.Some? && SumMap(sale.split.value) > 0 {
      var t := RemainingLegsSumToTotal(sale.total, sale.split.value, legs.shift);
      var u := RemainingLegsSumToTotal(sale.total, sale.split.value, legs.rows);
      assert legs.shift.Keys == legs.rows.Keys;
      assert |legs.shift| == |legs.shift.Keys| && |legs.rows| == |legs.rows.Keys|;
    } else if sale.payMethod == Split {
      NoneRemain(sale, legs);
    }
  }
}
