/** Stock and goods over every run of the ledger. */
module StockLaws {
  import opened Money
  import opened Domain
  import opened Sums
  import opened Refunds
  import opened SplitLegs
  import opened Points
  import opened Store
  import opened Books
  import opened SaleSteps
  import opened SellingSteps
  import opened PartialReturnSteps
  import opened FullReturnSteps
  import opened PaymentSteps
  import opened FinanceSteps
  import opened CustomerSteps
  import opened Ledger
  import opened PartialReturnLaws
  import SaleLaws
  import FullReturnLaws

  // ----- stock -----

  lemma StepStock(db: Db, op: Op, db': Db, p: Id)
    requires DbOk(db) && Step(db, op, db') && p in db.products && p in db'.products
    ensures StockGap(db', p) == StockGap(db, p)
  {
    hide DbOk, Sold, PartlyReturned, FullyReturned, Recorded, Collects, Opened, Closed, Received, CanPay, CanCancel;
    if db' != db {
      match op
      case Sell(cart, till) => SaleLaws.StockKept(db, cart, till, db', p);
      case PartReturn(id, product, qty) => StockKept(db, id, product, qty, db', p);
      case FullReturn(id, legs) => FullReturnLaws.StockKept(db, id, legs, db', p);
      case Receive(id, receipts) => ReceiveStockKept(db, id, receipts, db', p);
      case Pay(q) => PayFrame(db, op, db');
      case Collect(q) => PayFrame(db, op, db');
      case Enrol(_, _) => PayFrame(db, op, db');
      case Open(_, _, _) => BackOfficeFrame(db, op, db');
      case Close(_, _, _) => BackOfficeFrame(db, op, db');
      case _ =>
    }
  }

  lemma StepProducts(db: Db, op: Op, db': Db)
    requires Step(db, op, db')
    ensures db'.products.Keys <= db.products.Keys
  {
    hide Sold, PartlyReturned, FullyReturned, Recorded, Collects, Opened, Closed, Received, CanPay, CanCancel;
    if db' != db {
      if !BackOffice(op) {
        FrontDeskFrame(db, op, db');
      } else if op.Receive? {
        ReceiveProducts(db, op.order, op.receipts, db');
      } else {
        BackOfficeFrame(db, op, db');
      }
    }
  }

  lemma ReceiveProducts(db: Db, id: Id, receipts: seq<Receipt>, db': Db)
    requires Received(db, id, receipts, db')
    ensures db'.products.Keys == db.products.Keys
  {
    hide LinesReceived, MovedIn;
  }

  /** In any run, a product's stock changes by exactly the movements recorded for it, and is never negative. */
  lemma {:induction false} StockFollowsMovements(dbs: seq<Db>, ops: seq<Op>, k: nat, p: Id)
    requires Run(dbs, ops) && DbOk(dbs[0]) && k <= |ops| && p in dbs[k].products
    ensures p in dbs[0].products && dbs[k].products[p].stock >= 0
    ensures dbs[k].products[p].stock - dbs[0].products[p].stock
              == Sum(dbs[k].movements, StockIn(p)) - Sum(dbs[0].movements, StockIn(p))
  {
    hide Step, Fresh, Sum, Run;
    RunKeepsDb(dbs, ops, k);
    RunLength(dbs, ops);
    if k > 0 {
      StepOf(dbs, ops, k - 1);
      StepProducts(dbs[k - 1], ops[k - 1], dbs[k]);
      StockFollowsMovements(dbs, ops, k - 1, p);
      RunKeepsDb(dbs, ops, k - 1);
      StepStock(dbs[k - 1], ops[k - 1], dbs[k], p);
    }
  }


  // ----- goods per invoice -----

  /** The step leaves the goods of `p` on the `j`-th invoice in order: a sale brings in nothing marked returned, and a
      partial return is of a live invoice, or of another product with none of `p` out. */
  ghost predicate GoodsSafe(db: Db, op: Op, db': Db, j: nat, p: Id)
  {
    db' != db ==>
      && (op.PartReturn? && j < |db.sales| ==> GoodsUnharmed(db, op.id, op.product, j, p))
      && (op.Sell? && j == |db.sales| ==> Sum(op.cart.lines, SentBack(p)) == 0)
  }

  lemma StepFlowIff(db: Db, op: Op, db': Db, j: nat, p: Id)
    requires DbOk(db) && Step(db, op, db') && Fresh(db, op) && p in db.products && j < |db'.sales|
    requires j < |db.sales| ==> FlowGap(db, j, p) == 0
    ensures FlowGap(db', j, p) == 0 <==> GoodsSafe(db, op, db', j, p)
  {
    hide DbOk, Sold, PartlyReturned, FullyReturned, Recorded, Collects, Opened, Closed, Received, CanPay, CanCancel,
         FlowGap, SentReturnsOk, GoodsUnharmed;
    if db' != db {
      match op
      case Sell(cart, till) =>
        SoldSales(db, op, db');
        SaleLaws.FlowStarts(db, cart, till, db', j, p);
      case PartReturn(id, product, qty) =>
        ReturnedSales(db, op, db');
        FlowKeptIff(db, id, product, qty, db', j, p);
      case FullReturn(id, legs) =>
        ReturnedSales(db, op, db');
        FullReturnLaws.FlowKept(db, id, legs, db', j, p);
      case Pay(_) => PayFlow(db, op, db', j, p);
      case Collect(_) => PayFlow(db, op, db', j, p);
      case Enrol(_, _) => PayFlow(db, op, db', j, p);
      case Receive(id, receipts) => ReceiveFlow(db, id, receipts, db', j, p);
      case Open(_, _, _) => BackOfficeFlow(db, op, db', j, p);
      case Close(_, _, _) => BackOfficeFlow(db, op, db', j, p);
      case MoveCash(_) => BackOfficeFlow(db, op, db', j, p);
      case CreateOrder(_, _, _) => BackOfficeFlow(db, op, db', j, p);
      case PayOrder(_, _) => BackOfficeFlow(db, op, db', j, p);
      case CancelOrder(_) => BackOfficeFlow(db, op, db', j, p);
      case Discontinue(_) => BackOfficeFlow(db, op, db', j, p);
    }
  }

  lemma SalesStay(db: Db, op: Op, db': Db)
    requires Step(db, op, db')
    ensures |db'.sales| == |db.sales| + (if op.Sell? && db' != db then 1 else 0)
  {
    hide Does;
    if db' != db {
      if op.Sell? { SoldSales(db, op, db'); }
      else if op.PartReturn? || op.FullReturn? { ReturnedSales(db, op, db'); }
      else if BackOffice(op) { BackOfficeFrame(db, op, db'); }
      else { PayFrame(db, op, db'); }
    }
  }

  /** Over any run, for a product still in the catalogue: what came back on an invoice plus what it still has out equals
      what went out, at every moment, exactly when every step was safe. */
  lemma {:induction false} NothingComesBackTwice(dbs: seq<Db>, ops: seq<Op>, k: nat, j: nat, p: Id)
    requires Run(dbs, ops) && DbOk(dbs[0]) && k <= |ops| && p in dbs[k].products
    requires j < |dbs[0].sales| ==> FlowGap(dbs[0], j, p) == 0
    ensures (forall m :: 0 <= m <= k && j < |dbs[m].sales| ==> FlowGap(dbs[m], j, p) == 0)
            <==> (forall m :: 0 <= m < k ==> GoodsSafe(dbs[m], ops[m], dbs[m + 1], j, p))
  {
    hide Step, Fresh, Run, GoodsUnharmed, FlowGap;
    RunLength(dbs, ops);
    if k > 0 {
      StepOf(dbs, ops, k - 1);
      StepProducts(dbs[k - 1], ops[k - 1], dbs[k]);
      NothingComesBackTwice(dbs, ops, k - 1, j, p);
      RunKeepsDb(dbs, ops, k - 1);
      SalesStay(dbs[k - 1], ops[k - 1], dbs[k]);
      if j < |dbs[k].sales| && (j < |dbs[k - 1].sales| ==> FlowGap(dbs[k - 1], j, p) == 0) {
        StepFlowIff(dbs[k - 1], ops[k - 1], dbs[k], j, p);
      }
    }
  }

  /** Only invoices not yet returned are partly returned. The code does not check this. */
  ghost predicate ReturnsLive(db: Db, op: Op)
  {
    op.PartReturn? && FindSale(db.sales, op.id).Some? ==> Live(SaleAt(db, op.id))
  }

  ghost predicate NothingOverRestored(db: Db)
  {
    forall j, p :: 0 <= j < |db.sales| ==> FlowGap(db, j, p) <= 0
  }

  lemma StepFlow(db: Db, op: Op, db': Db, j: nat, p: Id)
    requires DbOk(db) && Step(db, op, db') && Fresh(db, op) && ReturnsLive(db, op) && NothingOverRestored(db)
    requires j < |db'.sales|
    ensures FlowGap(db', j, p) <= 0
  {
    hide DbOk, Sold, PartlyReturned, FullyReturned, Recorded, Collects, Opened, Closed, Received, CanPay, CanCancel,
         FlowGap;
    if db' != db {
      match op
      case Sell(cart, till) =>
        SoldSales(db, op, db');
        SaleLaws.FlowStarts(db, cart, till, db', j, p);
        SumNonNegative(cart.lines, SentBack(p));
      case PartReturn(id, product, qty) =>
        ReturnedSales(db, op, db');
        FlowKeptIff(db, id, product, qty, db', j, p);
      case FullReturn(id, legs) =>
        ReturnedSales(db, op, db');
        FullReturnLaws.FlowKept(db, id, legs, db', j, p);
      case Pay(_) => PayFlow(db, op, db', j, p);
      case Collect(_) => PayFlow(db, op, db', j, p);
      case Enrol(_, _) => PayFlow(db, op, db', j, p);
      case Receive(id, receipts) => ReceiveFlow(db, id, receipts, db', j, p);
      case _ => BackOfficeFlow(db, op, db', j, p);
    }
  }

  lemma PayFlow(db: Db, op: Op, db': Db, j: nat, p: Id)
    requires Does(db, op, db') && (op.Pay? || op.Collect? || op.Enrol?) && j < |db'.sales|
    ensures j < |db.sales| && FlowGap(db', j, p) == FlowGap(db, j, p)
  {
    hide Sum, Does;
    PayFrame(db, op, db');
  }

  lemma BackOfficeFlow(db: Db, op: Op, db': Db, j: nat, p: Id)
    requires Does(db, op, db') && BackOffice(op) && !op.Receive? && j < |db'.sales|
    ensures j < |db.sales| && FlowGap(db', j, p) == FlowGap(db, j, p)
  {
    hide Sum, Does;
    BackOfficeFrame(db, op, db');
  }

  lemma ReceiveFlow(db: Db, id: Id, receipts: seq<Receipt>, db': Db, j: nat, p: Id)
    requires Received(db, id, receipts, db') && j < |db'.sales|
    ensures j < |db.sales| && FlowGap(db', j, p) == FlowGap(db, j, p)
  {
    hide Sum, LinesReceived;
    SumGrows(db.movements, db'.movements, SaleFlow(db.sales[j].id, p));
    SumZero(db'.movements[|db.movements|..], SaleFlow(db.sales[j].id, p));
  }

  /** While only live invoices are partly returned, nothing comes back twice - not even products deleted since. */
  lemma {:induction false} NothingOverRestoredWhileLive(dbs: seq<Db>, ops: seq<Op>, k: nat)
    requires Run(dbs, ops) && DbOk(dbs[0]) && k <= |ops| && NothingOverRestored(dbs[0])
    requires forall j :: 0 <= j < |ops| ==> ReturnsLive(dbs[j], ops[j])
    ensures NothingOverRestored(dbs[k])
  {
    hide Step, Fresh, Run, ReturnsLive, FlowGap;
    RunLength(dbs, ops);
    if k > 0 {
      StepOf(dbs, ops, k - 1);
      NothingOverRestoredWhileLive(dbs, ops, k - 1);
      RunKeepsDb(dbs, ops, k - 1);
      forall j, p | 0 <= j < |dbs[k].sales| ensures FlowGap(dbs[k], j, p) <= 0 {
        StepFlow(dbs[k - 1], ops[k - 1], dbs[k], j, p);
      }
    }
  }
}
