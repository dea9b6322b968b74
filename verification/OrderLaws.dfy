/** Purchase orders over every run of the ledger. */
module OrderLaws {
  import opened Money
  import opened Domain
  import opened Sums
  import opened Refunds
  import opened SplitLegs
  import opened Points
  import opened Store
  import opened Books
  import opened SaleSteps
  import opened SellingSteps
  import opened PartialReturnSteps
  import opened FullReturnSteps
  import opened PaymentSteps
  import opened FinanceSteps
  import opened CustomerSteps
  import opened Ledger
  import opened PartialReturnLaws
  import SaleLaws
  import FullReturnLaws

  /** What a purchase order never goes back on. */
  ghost predicate OrderProgress(o: Order, o': Order)
  {
    && o'.id == o.id && o'.total == o.total && o.paid <= o'.paid && |o'.lines| == |o.lines|
    && (forall k :: 0 <= k < |o.lines| ==>
         o'.lines[k].qty == o.lines[k].qty && o.lines[k].received <= o'.lines[k].received)
    && (o.status == OrderCancelled ==> o' == o)
    && (o.status == OrderReceived ==> o'.status == OrderReceived && o'.lines == o.lines)
  }

  lemma ReceiveProgress(db: Db, id: Id, receipts: seq<Receipt>, db': Db, i: nat)
    requires DbOk(db) && Received(db, id, receipts, db') && i < |db.orders|
    ensures i < |db'.orders| && OrderProgress(db.orders[i], db'.orders[i])
  {
    hide LinesReceived, Stocked, StoredSaleOk;
    var j := FindOrder(db.orders, id).value;
    assert OrderOk(db.orders[j]);
    LinesStayWithin(db.orders[j].lines, receipts, db'.orders[j].lines);
    LinesCount(db.orders[j].lines, receipts, db'.orders[j].lines);
  }

  lemma StepOrders(db: Db, op: Op, db': Db, i: nat)
    requires DbOk(db) && Step(db, op, db') && i < |db.orders|
    ensures i < |db'.orders| && OrderProgress(db.orders[i], db'.orders[i])
  {
    hide DbOk, Sold, PartlyReturned, FullyReturned, Recorded, Collects, Received, Expected;
    if db' != db {
      if op.Receive? {
        ReceiveProgress(db, op.order, op.receipts, db', i);
      } else if !BackOffice(op) {
        FrontDeskFrame(db, op, db');
      }
    }
  }

  /** In any run, quantities received and amounts paid only grow, a received order receives nothing more, and a
      cancelled order is neither paid nor received again. */
  lemma {:induction false} OrdersOnlyProgress(dbs: seq<Db>, ops: seq<Op>, j: nat, k: nat, i: nat)
    requires Run(dbs, ops) && DbOk(dbs[0]) && j <= k <= |ops| && i < |dbs[j].orders|
    ensures i < |dbs[k].orders| && OrderOk(dbs[k].orders[i]) && OrderProgress(dbs[j].orders[i], dbs[k].orders[i])
    decreases k
  {
    hide Step, Fresh, Run, OrderOk, StoredSaleOk, SalesTableOk, ReferencesOk;
    RunLength(dbs, ops);
    if k > j {
      StepOf(dbs, ops, k - 1);
      OrdersOnlyProgress(dbs, ops, j, k - 1, i);
      RunKeepsDb(dbs, ops, k - 1);
      StepOrders(dbs[k - 1], ops[k - 1], dbs[k], i);
    }
    RunKeepsDb(dbs, ops, k);
  }

  // ----- what the status says -----

  /** A live order's status says how much has arrived. */
  ghost predicate StatusHonest(o: Order) { o.status == OrderCancelled || StatusSays(o) }

  /** A receipt that completes the order brings what each unfinished line lacks with the line's first entry. */
  ghost predicate ReceiptSafe(db: Db, op: Op, db': Db, i: nat)
    requires i < |db.orders|
  {
    db' != db && op.Receive? && FindOrder(db.orders, op.order) == Some(i) ==>
      (Completes(db.orders[i].lines, op.receipts) ==> FirstEntriesCover(db.orders[i].lines, op.receipts))
  }

  lemma StepStatusIff(db: Db, op: Op, db': Db, i: nat)
    requires DbOk(db) && Step(db, op, db') && i < |db.orders| && StatusHonest(db.orders[i])
    ensures i < |db'.orders|
    ensures StatusHonest(db'.orders[i]) <==> ReceiptSafe(db, op, db', i)
  {
    hide DbOk, Sold, PartlyReturned, FullyReturned, Recorded, Collects, Received, Expected, StatusSays, Completes,
         FirstEntriesCover, NewOrder;
    if db' != db {
      if op.Receive? {
        ReceiveStatus(db, op.order, op.receipts, db', i);
      } else if !BackOffice(op) {
        FrontDeskFrame(db, op, db');
      } else if op.PayOrder? {
        SameStatus(db.orders[i], db'.orders[i]);
      }
    }
  }

  lemma SameStatus(o: Order, o': Order)
    requires o'.lines == o.lines && o'.status == o.status
    ensures StatusHonest(o') <==> StatusHonest(o)
  {
  }

  lemma ReceiveStatus(db: Db, id: Id, receipts: seq<Receipt>, db': Db, i: nat)
    requires DbOk(db) && Received(db, id, receipts, db') && i < |db.orders| && StatusHonest(db.orders[i])
    ensures i < |db'.orders|
    ensures StatusHonest(db'.orders[i]) <==>
              (FindOrder(db.orders, id) == Some(i) && Completes(db.orders[i].lines, receipts) ==>
                 FirstEntriesCover(db.orders[i].lines, receipts))
  {
    hide LinesReceived, Stocked, StoredSaleOk, SalesTableOk, ReferencesOk, StatusSays, Completes, FirstEntriesCover,
         OrderOk, LeftShort, Full, Begun;
    if FindOrder(db.orders, id) == Some(i) {
      assert OrderOk(db.orders[i]);
      StatusSaysIff(db.orders[i], receipts, db'.orders[i]);
      NeverCancelled(db.orders[i], receipts, db'.orders[i]);
    }
  }

  lemma NeverCancelled(o: Order, receipts: seq<Receipt>, o': Order)
    requires o.status != OrderCancelled && o'.status == StatusAfter(o, receipts, o'.lines)
    ensures o'.status != OrderCancelled
  {
  }

  /** A new order is pending and nothing of it has arrived. */
  lemma NewOrderHonest(id: Id, supplier: Id, lines: seq<OrderLine>)
    requires lines != [] && forall k :: 0 <= k < |lines| ==> lines[k].qty > 0
    ensures StatusHonest(NewOrder(id, supplier, lines))
  {
    var blank := FreshLines(lines);
    assert blank[0].received < blank[0].qty;
  }

  /** Over any run, from a moment at which an order's status says how much of it has arrived, it goes on to say so at
      every moment exactly when every receipt was safe. */
  lemma {:induction false} StatusesStayHonest(dbs: seq<Db>, ops: seq<Op>, j: nat, k: nat, i: nat)
    requires Run(dbs, ops) && DbOk(dbs[0]) && j <= k <= |ops| && i < |dbs[j].orders| && StatusHonest(dbs[j].orders[i])
    ensures forall m :: j <= m <= k ==> i < |dbs[m].orders|
    ensures (forall m :: j <= m <= k ==> StatusHonest(dbs[m].orders[i]))
            <==> (forall m :: j <= m < k ==> ReceiptSafe(dbs[m], ops[m], dbs[m + 1], i))
    decreases k
  {
    hide Step, Fresh, Run, StatusHonest, ReceiptSafe, DbOk;
    RunLength(dbs, ops);
    if k > j {
      StepOf(dbs, ops, k - 1);
      StatusesStayHonest(dbs, ops, j, k - 1, i);
      RunKeepsDb(dbs, ops, k - 1);
      StepOrders(dbs[k - 1], ops[k - 1], dbs[k], i);
      if StatusHonest(dbs[k - 1].orders[i]) { StepStatusIff(dbs[k - 1], ops[k - 1], dbs[k], i); }
    }
  }
}
