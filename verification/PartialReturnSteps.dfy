/** What a partial return does to the database, and what it keeps. */
module PartialReturnSteps {
  import opened Money
  import opened Domain
  import opened Refunds
  import opened SplitLegs
  import opened Points
  import opened Store
  import opened Books
  import opened SaleSteps

  ghost predicate CanReturnPart(db: Db, id: Id, product: Id, qty: Milli)
  {
    FindSale(db.sales, id).Some? && ReturnPart(db.sales[FindSale(db.sales, id).value], product, qty).Ok?
  }

  /** Credit already paid off, handed back in cash. */
  ghost function PartialOverpaid(customers: map<Id, Customer>, sale: Sale, amount: Amount): Amount
  {
    if sale.payMethod == Credit && sale.customer in customers then amount - Min(customers[sale.customer].debt, amount)
        else 0
  }

  /** What a split invoice's refund takes off the customer's debt. */
  function CreditShare(sale: Sale, amount: Amount): Amount
    requires sale.total != 0
  {
    if sale.split.Some? && LegOf(sale.split.value, Credit) > 0
        then Quo(amount * LegOf(sale.split.value, Credit), sale.total) else 0
  }

  ghost function CustomersAfterPart(customers: map<Id, Customer>, sale: Sale, amount: Amount): map<Id, Customer>
    requires sale.total != 0
  {
    if sale.customer !in customers then customers
    else
      var c := customers[sale.customer];
      var debtDrop := match sale.payMethod
        case Credit => amount
        case Split => CreditShare(sale, amount)
        case _ => 0;
      customers[sale.customer := Customer(
        if debtDrop > 0 then Minus(c.debt, debtDrop) else c.debt,
        if sale.payMethod == Installments then Minus(c.installmentDebt, amount) else c.installmentDebt,
        Minus(c.totalPurchases, amount),
        Minus(c.points, PointsFor(amount)))]
  }

  ghost function PartialShares(sale: Sale, amount: Amount): Legs
    requires sale.split.Some? && sale.total != 0
  {
    Shares(amount, sale.split.value - {Credit}, sale.total)
  }

  ghost predicate PartialRows(sale: Sale, amount: Amount, over: Amount, rows: seq<Payment>)
    requires sale.total != 0
  {
    if sale.payMethod == Split && sale.split.Some?
        then RowPerLeg(rows, PartialShares(sale, amount), sale, -1, PartialReturnRow)
    else if sale.payMethod == Credit then
      rows == if over > 0 then [Payment(sale.id, sale.customer, -over, Cash, OverpaidCreditRow)] else []
    else rows == [Payment(sale.id, sale.customer, -amount, sale.payMethod, PartialReturnRow)]
  }

  /** The cash that leaves the drawer. */
  function PartialCash(sale: Sale, over: Amount, amount: Amount): Amount
    requires sale.total != 0
  {
    match sale.payMethod
    case Cash => amount
    case Split =>
      if sale.split.Some? && LegOf(sale.split.value, Cash) > 0
          then Quo(amount * LegOf(sale.split.value, Cash), sale.total) else 0
    case _ => over
  }

  ghost predicate PartlyReturned(db: Db, id: Id, product: Id, qty: Milli, db': Db)
  {
    CanReturnPart(db, id, product, qty) &&
    var i := FindSale(db.sales, id).value;
    var sale := db.sales[i];
    var r := ReturnPart(sale, product, qty).value;
    var over := PartialOverpaid(db.customers, sale, r.amount);
    && sale.total != 0
    && db'.sales == db.sales[i := r.sale]
    && GoodsBack(db.products, db.movements, product, qty, PartialReturnIn, id, db'.products, db'.movements)
    && db'.customers == CustomersAfterPart(db.customers, sale, r.amount)
    && db.payments <= db'.payments && PartialRows(sale, r.amount, over, db'.payments[|db.payments|..])
    && db'.shifts == ShiftsAfterRefunds(db.shifts, r.amount, PartialCash(sale, over, r.amount), false)
    && db'.cashMovements == db.cashMovements && db'.orders == db.orders
  }

  lemma PartialRowsRef(sale: Sale, amount: Amount, over: Amount, rows: seq<Payment>)
    requires sale.total != 0 && PartialRows(sale, amount, over, rows)
    ensures forall k :: 0 <= k < |rows| ==> rows[k].sale == sale.id && rows[k].customer == sale.customer
  {
    if sale.payMethod == Split && sale.split.Some? {
      forall k | 0 <= k < |rows| ensures rows[k].sale == sale.id && rows[k].customer == sale.customer {
        assert IsLegRow(rows[k], PartialShares(sale, amount), sale, -1, PartialReturnRow);
      }
    }
  }

  lemma PartialReturnKeepsKey(sale: Sale, product: Id, qty: Milli)
    requires ReturnPart(sale, product, qty).Ok?
    ensures var s := ReturnPart(sale, product, qty).value.sale;
            && s.id == sale.id && s.customer == sale.customer && s.payMethod == sale.payMethod
            && s.split == sale.split && s.plan == sale.plan && qty > 0 && !Collectable(s)
  {
    hide Quo, MulQty, RestOfInvoice;
  }

  lemma CustomersAfterPartOk(customers: map<Id, Customer>, sale: Sale, amount: Amount)
    requires sale.total != 0 && forall c :: c in customers ==> CustomerOk(customers[c])
    ensures var after := CustomersAfterPart(customers, sale, amount);
            after.Keys == customers.Keys && forall c :: c in after ==> CustomerOk(after[c])
  {
    hide Quo, Div;
  }

  lemma GoodsBackOk(db: Db, product: Id, qty: Milli, id: Id, db': Db)
    requires forall p :: p in db.products ==> db.products[p].stock >= 0
    requires GoodsBack(db.products, db.movements, product, qty, PartialReturnIn, id, db'.products, db'.movements)
    ensures qty > 0 ==> forall p :: p in db'.products ==> db'.products[p].stock >= 0
    ensures db.movements <= db'.movements
    ensures var ms := db'.movements[|db.movements|..]; forall k :: 0 <= k < |ms| ==> ms[k].ref == id
  {
  }

  /** Every partial return keeps the database well formed - also one on an invoice already returned in full. */
  lemma PartialReturnKeepsDb(db: Db, id: Id, product: Id, qty: Milli, db': Db)
    requires DbOk(db) && PartlyReturned(db, id, product, qty, db')
    ensures DbOk(db')
  {
    hide ReturnPart, RowPerLeg, PartialRows, CustomersAfterPart, PartialCash, PartialOverpaid, SaleOk, SplitOk,
         GoodsBack, ReferencesOk, ShiftsOk, SalesTableOk, OrderOk, CustomerOk, Minus;
    var i := FindSale(db.sales, id).value;
    var sale := db.sales[i];
    var r := ReturnPart(sale, product, qty).value;
    SaleStored(db, i);
    GoodsBackOk(db, product, qty, id, db');
    PartialReturnStep(sale, product, qty);
    PartialReturnKeepsKey(sale, product, qty);
    CustomersAfterPartOk(db.customers, sale, r.amount);
    SamePlan(sale, r.sale);
    SaleRewritten(db, i, r.sale, db');
    PartialRowsRef(sale, r.amount, PartialOverpaid(db.customers, sale, r.amount), db'.payments[|db.payments|..]);
    SameReferences(db, db', id);
    PayersGrow(db, db', sale.customer);
    ReturnKeepsShifts(db, db', r.amount, PartialCash(sale, PartialOverpaid(db.customers, sale, r.amount), r.amount),
        false);
  }
}
