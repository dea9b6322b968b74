/** The whole ledger as one state machine, and what holds over every run of it. */
module Ledger {
  import opened Money
  import opened Domain
  import opened Refunds
  import opened Store
  import opened Books
  import opened SellingSteps
  import opened PartialReturnSteps
  import opened FullReturnSteps
  import opened PartialReturnLaws
  import opened PaymentSteps
  import opened FinanceSteps
  import opened CustomerSteps

  datatype Op =
    | Sell(cart: Sale, till: Till)
    | PartReturn(id: Id, product: Id, qty: Milli)
    | FullReturn(id: Id, legs: ScaledLegs)
    | Pay(payment: PaymentRequest)
    | Collect(collection: Collection)
    | Open(shift: Id, staff: Id, opening: Amount)
    | Close(shift: Id, closing: Amount, closer: Closer)
    | MoveCash(movement: CashMovement)
    | Receive(order: Id, receipts: seq<Receipt>)
    | CreateOrder(order: Id, supplier: Id, orderLines: seq<OrderLine>)
    | PayOrder(order: Id, paid: Amount)
    | CancelOrder(order: Id)
    | Discontinue(product: Id)
    | Enrol(customer: Id, row: Customer)

  /** The operation succeeds and takes `db` to `db'`. */
  ghost predicate Does(db: Db, op: Op, db': Db)
  {
    match op
    case Sell(cart, till) => Sold(db, cart, till, db')
    case PartReturn(id, product, qty) => PartlyReturned(db, id, product, qty, db')
    case FullReturn(id, legs) => FullyReturned(db, id, legs, db')
    case Pay(q) => Recorded(db, q, db')
    case Collect(q) => Collects(db, q, db')
    case Open(id, staff, opening) => Opened(db, id, staff, opening, db')
    case Close(id, closing, closer) => Closed(db, id, closing, closer, db')
    case MoveCash(m) => db' == db.(cashMovements := db.cashMovements + [m])
    case Receive(id, receipts) => Received(db, id, receipts, db')
    case CreateOrder(id, supplier, lines) =>
      && lines != [] && (forall k :: 0 <= k < |lines| ==> lines[k].qty > 0 && lines[k].unitCost > 0)
      && db' == db.(orders := db.orders + [NewOrder(id, supplier, lines)])
    case PayOrder(id, amount) =>
      CanPay(db, id, amount) && var i := FindOrder(db.orders, id).value;
      db' == db.(orders := db.orders[i := db.orders[i].(paid := db.orders[i].paid + amount)])
    case CancelOrder(id) =>
      CanCancel(db, id) && var i := FindOrder(db.orders, id).value;
      db' == db.(orders := db.orders[i := db.orders[i].(status := OrderCancelled)])
    case Discontinue(p) => db' == db.(products := db.products - {p})
    case Enrol(c, row) => Enrolled(db, c, row, db')
  }

  /** A refused operation leaves the database as it was. */
  ghost predicate Step(db: Db, op: Op, db': Db) { db' == db || Does(db, op, db') }

  /** Identifiers the operation brings in are new, a cart's returned quantities are ones an invoice may have, and a new
      customer's counters are not negative. */
  ghost predicate Fresh(db: Db, op: Op)
  {
    match op
    case Sell(cart, till) => till.freshId != NoId && SentReturnsOk(cart)
    case Open(id, _, _) => FindShift(db.shifts, id).None?
    case CreateOrder(id, _, _) => FindOrder(db.orders, id).None?
    case Enrol(_, row) => CustomerOk(row)
    case _ => true
  }

  ghost predicate Run(dbs: seq<Db>, ops: seq<Op>)
  {
    && |dbs| == |ops| + 1
    && forall k :: 0 <= k < |ops| ==> Step(dbs[k], ops[k], dbs[k + 1]) && Fresh(dbs[k], ops[k])
  }

  /** Orders, cash movements and shifts leave sales, payments and customers alone. */
  predicate BackOffice(op: Op)
  {
    !op.Sell? && !op.PartReturn? && !op.FullReturn? && !op.Pay? && !op.Collect? && !op.Enrol?
  }

  lemma BackOfficeFrame(db: Db, op: Op, db': Db)
    requires Does(db, op, db') && BackOffice(op)
    ensures db'.sales == db.sales && db'.payments == db.payments && db'.customers == db.customers
    ensures !op.Receive? && !op.Discontinue? ==> db'.products == db.products && db'.movements == db.movements
    ensures !op.Open? && !op.Close? ==> db'.shifts == db.shifts
    ensures op.Discontinue? ==> db'.products.Keys <= db.products.Keys && db'.movements == db.movements
  {
    hide Expected, Stocked, LinesReceived, Full, Begun;
  }

  lemma FrontDeskFrame(db: Db, op: Op, db': Db)
    requires Does(db, op, db') && !BackOffice(op)
    ensures db'.orders == db.orders && db'.cashMovements == db.cashMovements && db'.products.Keys == db.products.Keys
    ensures |db.sales| <= |db'.sales| && forall k :: 0 <= k < |db.sales| ==>
              db'.sales[k].id == db.sales[k].id && db'.sales[k].payMethod == db.sales[k].payMethod
  {
    hide CanSell, Invoice, ReturnPart, SaleRows, PartialRows, ReturnRows, CustomersAfterSale, CustomersAfterPart,
         CustomersAfterReturn, AreScaledLegs, ReturnMovements, CanRecord, Settle;
    if op.PartReturn? {
      PartialReturnKeepsKey(SaleAt(db, op.id), op.product, op.qty);
    }
  }

  lemma PayFrame(db: Db, op: Op, db': Db)
    requires Does(db, op, db') && (op.Pay? || op.Collect? || op.Enrol?)
    ensures db'.products == db.products && db'.movements == db.movements
    ensures |db'.sales| == |db.sales| && forall k :: 0 <= k < |db.sales| ==>
              db'.sales[k].id == db.sales[k].id && db'.sales[k].lines == db.sales[k].lines
                  && Live(db'.sales[k]) == Live(db.sales[k])
  {
  }

  lemma SoldSales(db: Db, op: Op, db': Db)
    requires Does(db, op, db') && op.Sell?
    ensures |db'.sales| == |db.sales| + 1
  {
    hide CanSell, SaleRows, StockTaken;
  }

  lemma ReturnedSales(db: Db, op: Op, db': Db)
    requires Does(db, op, db') && (op.PartReturn? || op.FullReturn?)
    ensures |db'.sales| == |db.sales| && FindSale(db.sales, op.id).Some?
  {
    hide ReturnPart, PartialRows, ReturnRows, AreScaledLegs;
  }

  /** Customers are never removed. */
  lemma CustomersStay(db: Db, op: Op, db': Db, c: Id)
    requires Step(db, op, db') && c in db.customers
    ensures c in db'.customers
  {
    hide CanSell, Invoice, ReturnPart, SaleRows, PartialRows, ReturnRows, AreScaledLegs, ReturnMovements, CanRecord,
         Settle, StockTaken, Restocked, ReturnCash, ReturnValue, OverpaidAtReturn, PartialOverpaid, PartialCash, Does;
    if db' != db {
      if BackOffice(op) { BackOfficeFrame(db, op, db'); } else { FrontDeskCustomers(db, op, db', c); }
    }
  }

  lemma FrontDeskCustomers(db: Db, op: Op, db': Db, c: Id)
    requires Does(db, op, db') && !BackOffice(op) && c in db.customers
    ensures c in db'.customers
  {
    hide CanSell, Invoice, ReturnPart, SaleRows, PartialRows, ReturnRows, AreScaledLegs, ReturnMovements, CanRecord,
         Settle, StockTaken, Restocked, ReturnCash, ReturnValue, OverpaidAtReturn, PartialOverpaid, PartialCash;
  }

  lemma OrderStepKeepsDb(db: Db, op: Op, db': Db)
    requires DbOk(db) && Does(db, op, db') && (op.PayOrder? || op.CancelOrder?)
    ensures DbOk(db')
  {
    hide StoredSaleOk, SalesTableOk, ReferencesOk, ShiftsOk, CustomerOk, FindOrder;
    var i := FindOrder(db.orders, op.order).value;
    OrderRewritten(db, i, db'.orders[i], db');
  }

  lemma OtherStepKeepsDb(db: Db, op: Op, db': Db)
    requires DbOk(db) && Does(db, op, db') && (op.MoveCash? || op.Discontinue?)
    ensures DbOk(db')
  {
    hide StoredSaleOk, SalesTableOk, ReferencesOk, OrderOk, CustomerOk;
    SameTables(db, db');
  }

  lemma StepKeepsDb(db: Db, op: Op, db': Db)
    requires DbOk(db) && Step(db, op, db') && Fresh(db, op)
    ensures DbOk(db')
  {
    hide DbOk, Sold, PartlyReturned, FullyReturned, Recorded, Collects, Opened, Closed, Received, SentReturnsOk,
         Enrolled, CustomerOk;
    if db' != db {
      match op
      case Sell(cart, till) => SaleKeepsDb(db, cart, till, db');
      case PartReturn(id, product, qty) => PartialReturnKeepsDb(db, id, product, qty, db');
      case FullReturn(id, legs) => ReturnKeepsDb(db, id, legs, db');
      case Pay(q) => RecordKeepsDb(db, q, db');
      case Collect(q) => CollectKeepsDb(db, q, db');
      case Open(id, staff, opening) => OpenKeepsDb(db, id, staff, opening, db');
      case Close(id, closing, closer) => CloseKeepsDb(db, id, closing, closer, db');
      case Receive(id, receipts) => ReceiveKeepsDb(db, id, receipts, db');
      case CreateOrder(id, supplier, lines) => OrderAddedKeepsDb(db, id, supplier, lines, db');
      case PayOrder(_, _) => OrderStepKeepsDb(db, op, db');
      case CancelOrder(_) => OrderStepKeepsDb(db, op, db');
      case MoveCash(_) => OtherStepKeepsDb(db, op, db');
      case Discontinue(_) => OtherStepKeepsDb(db, op, db');
      case Enrol(c, row) => EnrolKeepsDbIff(db, c, row, db');
    }
  }

  lemma StepOf(dbs: seq<Db>, ops: seq<Op>, k: nat)
    requires Run(dbs, ops) && k < |ops|
    ensures Step(dbs[k], ops[k], dbs[k + 1]) && Fresh(dbs[k], ops[k])
  {
    hide Step, Fresh;
  }

  /** Every state of every run is well formed. */
  lemma {:induction false} RunKeepsDb(dbs: seq<Db>, ops: seq<Op>, k: nat)
    requires Run(dbs, ops) && DbOk(dbs[0]) && k <= |ops|
    ensures DbOk(dbs[k])
  {
    hide DbOk, Step, Fresh;
    if k > 0 {
      RunKeepsDb(dbs, ops, k - 1);
      StepOf(dbs, ops, k - 1);
      StepKeepsDb(dbs[k - 1], ops[k - 1], dbs[k]);
    }
  }

  lemma RunLength(dbs: seq<Db>, ops: seq<Op>)
    requires Run(dbs, ops)
    ensures |dbs| == |ops| + 1
  {
    hide Step, Fresh;
  }
}
