/** What a full return does to the database, and what it keeps. */
module FullReturnSteps {
  import opened Money
  import opened Domain
  import opened Sums
  import opened Refunds
  import opened SplitLegs
  import opened Points
  import opened Store
  import opened Books
  import opened SaleSteps

  ghost predicate CanReturn(db: Db, id: Id)
  {
    FindSale(db.sales, id).Some? && Live(db.sales[FindSale(db.sales, id).value])
  }

  /** The results of the calls to saleRemainingLegs: for the debt, for the rows and for the shift. */
  datatype ScaledLegs = ScaledLegs(debt: Legs, rows: Legs, shift: Legs)

  ghost predicate AreScaledLegs(sale: Sale, legs: ScaledLegs)
  {
    && RemainingLegs(sale.total, sale.split, legs.debt)
    && RemainingLegs(sale.total, sale.split, legs.rows)
    && RemainingLegs(sale.total, sale.split, legs.shift)
  }

  /** One movement per line that still has goods out, for products that still exist. */
  ghost function ReturnMovements(lines: seq<Line>, products: map<Id, Product>, id: Id): (ms: seq<Movement>)
    ensures forall k :: 0 <= k < |ms| ==> ms[k].ref == id && ms[k].kind == ReturnIn
  {
    if lines == [] then []
    else
      var line := lines[|lines| - 1];
      var before := ReturnMovements(lines[..|lines| - 1], products, id);
      if line.product in products && line.qty - line.returned > 0
      then before + [Movement(line.product, ReturnIn, line.qty - line.returned, id)] else before
  }

  /** Stock after everything still out on `lines` has come back. */
  ghost predicate Restocked(products: map<Id, Product>, lines: seq<Line>, products': map<Id, Product>)
  {
    && products'.Keys == products.Keys
    && forall p :: p in products ==> products'[p] == products[p].(stock := products[p].stock + Sum(lines, StillOut(p)))
  }

  /** Down payment plus the installments paid. */
  ghost function Collected(sale: Sale): Amount
  {
    if sale.plan.Some? then DownPayment(sale) + Sum(Schedule(sale), EntryAmount(true)) else 0
  }

  lemma OutstandingIs(sale: Sale)
    ensures Outstanding(sale) == sale.total - Collected(sale)
  {
  }

  /** What the return takes off the customer's debt, before clamping. */
  ghost function DebtReturned(sale: Sale, legs: Legs): Amount
  {
    match sale.payMethod
    case Credit => sale.total
    case Split => LegOf(legs, Credit)
    case _ => 0
  }

  ghost function CustomersAfterReturn(customers: map<Id, Customer>, sale: Sale, legs: Legs): map<Id, Customer>
  {
    if sale.customer !in customers then customers
    else
      var c := customers[sale.customer];
      customers[sale.customer := Customer(
        if DebtReturned(sale, legs) > 0 then Minus(c.debt, DebtReturned(sale, legs)) else c.debt,
        if sale.payMethod == Installments && Outstanding(sale) > 0 then Minus(c.installmentDebt, Outstanding(sale))
            else c.installmentDebt,
        Minus(c.totalPurchases, sale.total),
        Minus(c.points, PointsFor(sale.total)))]
  }

  /** Credit already paid off, handed back in cash. */
  ghost function OverpaidAtReturn(customers: map<Id, Customer>, sale: Sale, legs: Legs): Amount
  {
    if sale.customer in customers && DebtReturned(sale, legs) > 0
    then DebtReturned(sale, legs) - Min(customers[sale.customer].debt, DebtReturned(sale, legs)) else 0
  }

  ghost function OverpaidRows(sale: Sale, over: Amount): seq<Payment>
  {
    if over > 0 then [Payment(sale.id, sale.customer, -over, Cash, OverpaidCreditRow)] else []
  }

  ghost predicate ReturnRows(sale: Sale, over: Amount, legs: Legs, rows: seq<Payment>)
  {
    match sale.payMethod
    case Cash => rows == [Payment(sale.id, sale.customer, -sale.total, Cash, RefundRow)]
    case Card => rows == [Payment(sale.id, sale.customer, -sale.total, Card, RefundRow)]
    case Credit => rows == OverpaidRows(sale, over)
    case Installments =>
      rows == if Collected(sale) > 0
          then [Payment(sale.id, sale.customer, -Collected(sale), Cash, InstallmentRefundRow)] else []
    case Split =>
      var first := OverpaidRows(sale, over);
      && first <= rows
      && (if sale.split.Some? then RowPerLeg(rows[|first|..], legs - {Credit}, sale, -1, SplitRefundRow)
           else rows == first)
    case Other(_) => rows == []
  }

  /** What the shift is told left the drawer, and in all. The cash handed back for a split invoice's overpaid credit is
      not in it. */
  ghost function ReturnCash(sale: Sale, over: Amount, legs: Legs): Amount
  {
    match sale.payMethod
    case Cash => sale.total
    case Credit => over
    case Installments => Collected(sale)
    case Split => LegOf(legs, Cash)
    case _ => 0
  }

  ghost function ReturnValue(sale: Sale, over: Amount, legs: Legs): Amount
  {
    match sale.payMethod
    case Card => sale.total
    case Split => LegOf(legs, Cash) + LegOf(legs, Card)
    case _ => ReturnCash(sale, over, legs)
  }

  ghost predicate FullyReturned(db: Db, id: Id, legs: ScaledLegs, db': Db)
  {
    CanReturn(db, id) &&
    var i := FindSale(db.sales, id).value;
    var sale := db.sales[i];
    var over := OverpaidAtReturn(db.customers, sale, legs.debt);
    var value := ReturnValue(sale, over, legs.shift);
    && AreScaledLegs(sale, legs)
    && db'.sales == db.sales[i := sale.(status := Returned)]
    && Restocked(db.products, sale.lines, db'.products)
    && db'.movements == db.movements + ReturnMovements(sale.lines, db.products, id)
    && db'.customers == CustomersAfterReturn(db.customers, sale, legs.debt)
    && db.payments <= db'.payments && ReturnRows(sale, over, legs.rows, db'.payments[|db.payments|..])
    && db'.shifts == (if value > 0 then ShiftsAfterRefunds(db.shifts, value, ReturnCash(sale, over, legs.shift), true)
         else db.shifts)
    && db'.cashMovements == db.cashMovements && db'.orders == db.orders
  }

  lemma CustomersAfterReturnOk(customers: map<Id, Customer>, sale: Sale, legs: Legs)
    requires forall c :: c in customers ==> CustomerOk(customers[c])
    ensures var after := CustomersAfterReturn(customers, sale, legs);
            after.Keys == customers.Keys && forall c :: c in after ==> CustomerOk(after[c])
  {
    hide Div, Outstanding, DebtReturned;
  }

  lemma ReturnRowsRef(sale: Sale, over: Amount, legs: Legs, rows: seq<Payment>)
    requires ReturnRows(sale, over, legs, rows)
    ensures forall k :: 0 <= k < |rows| ==> rows[k].sale == sale.id && rows[k].customer == sale.customer
  {
    if sale.payMethod == Split && sale.split.Some? {
      var first := OverpaidRows(sale, over);
      forall k | 0 <= k < |rows| ensures rows[k].sale == sale.id && rows[k].customer == sale.customer {
        if k >= |first| {
          assert rows[k] == rows[|first|..][k - |first|];
          assert IsLegRow(rows[|first|..][k - |first|], legs - {Credit}, sale, -1, SplitRefundRow);
        } else {
          assert rows[k] == first[k];
        }
      }
    }
  }

  lemma StillOutNonNegative(lines: seq<Line>, p: Id)
    requires forall k :: 0 <= k < |lines| ==> LineOk(lines[k])
    ensures Sum(lines, StillOut(p)) >= 0
  {
    SumNonNegative(lines, StillOut(p));
  }

  lemma RestockedOk(products: map<Id, Product>, lines: seq<Line>, products': map<Id, Product>)
    requires Restocked(products, lines, products') && forall k :: 0 <= k < |lines| ==> LineOk(lines[k])
    requires forall p :: p in products ==> products[p].stock >= 0
    ensures forall p :: p in products' ==> products'[p].stock >= 0
  {
    forall p | p in products' ensures products'[p].stock >= 0 {
      StillOutNonNegative(lines, p);
    }
  }

  lemma RestockedNothing(products: map<Id, Product>)
    ensures Restocked(products, [], products)
  {
  }

  lemma RestockedKeys(products: map<Id, Product>, lines: seq<Line>, after: map<Id, Product>)
    requires Restocked(products, lines, after)
    ensures after.Keys == products.Keys
  {
  }

  lemma RestockedMore(products: map<Id, Product>, lines: seq<Line>, line: Line, before: map<Id, Product>,
                      after: map<Id, Product>)
    requires Restocked(products, lines, before) && LineOk(line)
    requires after == if line.product in products && line.qty > line.returned
                      then before[line.product :=
                          before[line.product].(stock := before[line.product].stock + line.qty - line.returned)]
                      else before
    ensures Restocked(products, lines + [line], after)
  {
    hide Sum;
    forall p | p in products
      ensures after[p] == products[p].(stock := products[p].stock + Sum(lines + [line], StillOut(p))) {
      SumAppend(lines, line, StillOut(p));
    }
  }

  lemma ReturnKeepsDb(db: Db, id: Id, legs: ScaledLegs, db': Db)
    requires DbOk(db) && FullyReturned(db, id, legs, db')
    ensures DbOk(db')
  {
    hide RowPerLeg, ReturnRows, CustomersAfterReturn, ReturnCash, ReturnValue, OverpaidAtReturn, SaleOk, SplitOk,
         AreScaledLegs, Restocked, ReturnMovements, ReferencesOk, ShiftsOk, SalesTableOk, CustomerOk, Minus;
    var i := FindSale(db.sales, id).value;
    var sale := db.sales[i];
    assert StoredSaleOk(db, sale) by { assert SalesTableOk(db); SaleStored(db, i); }
    StatusChange(sale, Returned);
    RestockedOk(db.products, sale.lines, db'.products);
    CustomersAfterReturnOk(db.customers, sale, legs.debt);
    SamePlan(sale, db'.sales[i]);
    SaleRewritten(db, i, db'.sales[i], db');
    ReturnRowsRef(sale, OverpaidAtReturn(db.customers, sale, legs.debt), legs.rows, db'.payments[|db.payments|..]);
    assert db'.movements[|db.movements|..] == ReturnMovements(sale.lines, db.products, id);
    SameReferences(db, db', id);
    PayersGrow(db, db', sale.customer);
    ReturnKeepsShifts(db, db', ReturnValue(sale, OverpaidAtReturn(db.customers, sale, legs.debt), legs.shift),
                      ReturnCash(sale, OverpaidAtReturn(db.customers, sale, legs.debt), legs.shift), true);
  }

  lemma StatusChange(sale: Sale, status: Status)
    requires SaleOk(sale)
    ensures SaleOk(sale.(status := status)) && 0 <= sale.total && forall k :: 0 <= k < |sale.lines| ==>
              LineOk(sale.lines[k])
  {
  }
}
