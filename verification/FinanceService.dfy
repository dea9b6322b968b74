/** Shifts and purchase orders (internal/service/finance_service.go). */
module FinanceService {
  import opened Money
  import opened Domain
  import opened Sums
  import opened Store
  import opened ProductCache
  import opened Books
  import opened FinanceSteps

  /** The movement types AddCashMovement tells apart; any other string is refused. */
  datatype MoveType = CashInType | CashOutType | UnknownType

  class FinanceService {
    const store: Store
    /** May be missing, as in the source: then there is no cache to clear. */
    const products: ProductService?

    constructor (store: Store, products: ProductService?)
      ensures this.store == store && this.products == products
    {
      this.store, this.products := store, products;
    }

    // ----- shifts -----

    method OpenShift(freshId: Id, staff: Id, opening: Amount) returns (r: Result<()>)
      requires DbOk(store.db) && FindShift(store.db.shifts, freshId).None?
      modifies store
      ensures r.Ok? <==> ActiveShift(old(store.db).shifts).None?
      ensures r.Ok? ==> Opened(old(store.db), freshId, staff, opening, store.db)
      ensures r.Err? ==> store.db == old(store.db)
      ensures DbOk(store.db)
    {
      if ActiveShift(store.db.shifts).Some? {
        return Err(ShiftAlreadyOpen);
      }
      var begin := store.db;
      store.db := store.db.(shifts := store.db.shifts + [NewShift(freshId, staff, opening, |store.db.payments|)]);
      OpenKeepsDb(begin, freshId, staff, opening, store.db);
      r := Ok(());
    }

    method CloseShift(id: Id, closing: Amount, closer: Closer) returns (r: Result<()>)
      requires DbOk(store.db)
      modifies store
      ensures r.Ok? <==> CanClose(old(store.db), id, closer)
      ensures r.Ok? ==> Closed(old(store.db), id, closing, closer, store.db)
      ensures r.Err? ==> store.db == old(store.db)
      ensures DbOk(store.db)
    {
      var found := FindShift(store.db.shifts, id);
      if found.None? {
        return Err(ShiftNotFound);
      }
      var i := found.value;
      var shift := store.db.shifts[i];
      if !shift.isOpen {
        return Err(ShiftIsClosed);
      }
      if !MayClose(closer, shift) {
        return Err(NotYourShift);
      }
      var begin := store.db;
      var cashIn, cashOut := GetCashInAndOut(id);
      var expected := shift.openingBalance + shift.cashSales + cashIn - cashOut;
      store.db := store.db.(shifts := store.db.shifts[i := shift.(
        isOpen := false, expectedBalance := expected, closingBalance := closing, variance := closing - expected)]);
      CloseKeepsDb(begin, id, closing, closer, store.db);
      r := Ok(());
    }

    method GetCashInAndOut(id: Id) returns (cashIn: Amount, cashOut: Amount)
      ensures cashIn == Sum(store.db.cashMovements, Drawer(id, true))
                && cashOut == Sum(store.db.cashMovements, Drawer(id, false))
    {
      cashIn, cashOut := 0, 0;
      var rows := store.db.cashMovements;
      for k := 0 to |rows|
        invariant cashIn == Sum(rows[..k], Drawer(id, true)) && cashOut == Sum(rows[..k], Drawer(id, false))
      {
        assert rows[..k + 1] == rows[..k] + [rows[k]];
        SumAppend(rows[..k], rows[k], Drawer(id, true));
        SumAppend(rows[..k], rows[k], Drawer(id, false));
        if rows[k].shift == id && rows[k].isIn {
          cashIn := cashIn + rows[k].amount;
        } else if rows[k].shift == id {
          cashOut := cashOut + rows[k].amount;
        }
      }
      assert rows[..|rows|] == rows;
    }

    method AddCashMovement(id: Id, kind: MoveType, amount: Amount) returns (r: Result<()>)
      requires DbOk(store.db)
      modifies store
      ensures r.Ok? <==> amount > 0 && kind != UnknownType && FindShift(old(store.db).shifts, id).Some?
                         && old(store.db).shifts[FindShift(old(store.db).shifts, id).value].isOpen
      ensures r.Ok? ==> store.db == old(store.db).(cashMovements :=
                old(store.db).cashMovements + [CashMovement(id, kind == CashInType, amount)])
      ensures r.Err? ==> store.db == old(store.db)
      ensures DbOk(store.db)
    {
      hide StoredSaleOk, OrderOk;
      if amount <= 0 {
        return Err(InvalidAmount);
      }
      if kind == UnknownType {
        return Err(InvalidMovement);
      }
      var found := FindShift(store.db.shifts, id);
      if found.None? {
        return Err(ShiftNotFound);
      }
      if !store.db.shifts[found.value].isOpen {
        return Err(ShiftIsClosed);
      }
      ghost var begin := store.db;
      store.db := store.db.(cashMovements := store.db.cashMovements + [CashMovement(id, kind == CashInType, amount)]);
      SameTables(begin, store.db);
      r := Ok(());
    }

    // ----- purchase orders -----

    method CreatePurchaseOrder(freshId: Id, supplier: Id, lines: seq<OrderLine>) returns (r: Result<()>)
      requires DbOk(store.db) && FindOrder(store.db.orders, freshId).None?
      modifies store
      ensures r.Ok? <==>
                && supplier != NoId && lines != []
                && forall k :: 0 <= k < |lines| ==> lines[k].qty > 0 && lines[k].unitCost > 0
      ensures r.Ok? ==>
                store.db == old(store.db).(orders := old(store.db).orders + [NewOrder(freshId, supplier, lines)])
      ensures r.Err? ==> store.db == old(store.db)
      ensures DbOk(store.db)
    {
      hide StoredSaleOk, MulQty, Sum;
      if supplier == NoId {
        return Err(SupplierRequired);
      }
      if lines == [] {
        return Err(EmptyCart);
      }
      var checked, total := CheckOrderLines(lines);
      if checked.Err? {
        return Err(checked.error);
      }
      var begin := store.db;
      var order := Order(freshId, supplier, OrderPending, total, 0, FreshLines(lines));
      store.db := store.db.(orders := store.db.orders + [order]);
      OrderAddedKeepsDb(begin, freshId, supplier, lines, store.db);
      r := Ok(());
    }

    method CheckOrderLines(lines: seq<OrderLine>) returns (r: Result<()>, total: Amount)
      ensures r.Ok? <==> forall k :: 0 <= k < |lines| ==> lines[k].qty > 0 && lines[k].unitCost > 0
      ensures r.Ok? ==> total == Sum(lines, LineCost())
    {
      hide MulQty, Sum;
      total := 0;
      SumZero([], LineCost());
      for k := 0 to |lines|
        invariant forall j :: 0 <= j < k ==> lines[j].qty > 0 && lines[j].unitCost > 0
        invariant total == Sum(lines[..k], LineCost())
      {
        if lines[k].qty <= 0 {
          return Err(InvalidQuantity), total;
        }
        if lines[k].unitCost <= 0 {
          return Err(InvalidCost), total;
        }
        assert lines[..k + 1] == lines[..k] + [lines[k]];
        SumAppend(lines[..k], lines[k], LineCost());
        total := total + MulQty(lines[k].unitCost, lines[k].qty);
      }
      assert lines[..|lines|] == lines;
      r := Ok(());
    }

    method ReceivePurchaseOrder(id: Id, receipts: seq<Receipt>) returns (r: Result<()>)
      requires DbOk(store.db)
      modifies store, products
      ensures r.Ok? <==> CanReceive(old(store.db), id)
                         && Deliverable(old(store.db).products,
                              old(store.db).orders[FindOrder(old(store.db).orders, id).value].lines, receipts)
      ensures r.Ok? ==> Received(old(store.db), id, receipts, store.db)
      ensures r.Err? ==> store.db == old(store.db)
      ensures DbOk(store.db)
      ensures products != null ==> products.State() == if r.Ok? then NO_CACHE else old(products.State())
    {
      var begin := store.db;
      r := ReceivePurchaseOrderTx(id, receipts);
      if r.Err? {
        store.db := begin;
      } else {
        ReceiveKeepsDb(begin, id, receipts, store.db);
        if products != null { products.ClearCache(); }
      }
    }

    method ReceivePurchaseOrderTx(id: Id, receipts: seq<Receipt>) returns (r: Result<()>)
      requires DbOk(store.db)
      modifies store
      ensures r.Ok? <==> CanReceive(old(store.db), id)
                         && Deliverable(old(store.db).products,
                              old(store.db).orders[FindOrder(old(store.db).orders, id).value].lines, receipts)
      ensures r.Ok? ==> Received(old(store.db), id, receipts, store.db)
    {
      hide StoredSaleOk, SalesTableOk, ReferencesOk, LinesReceived, Stocked, Deliverable, Full, Begun, LeftShort;
      var found := FindOrder(store.db.orders, id);
      if found.None? {
        return Err(OrderNotFound);
      }
      var i := found.value;
      var order := store.db.orders[i];
      assert OrderOk(order);
      if order.status == OrderReceived {
        return Err(OrderIsReceived);
      }
      if order.status == OrderCancelled {
        return Err(OrderIsCancelled);
      }
      var taken, lines, allReceived := ReceiveLoop(id, order.lines, receipts);
      if taken.Err? {
        return Err(taken.error);
      }
      var full, begun := ScanLines(lines, allReceived);
      var status := order.status;
      if full {
        status := OrderReceived;
      } else if begun {
        status := OrderPartial;
      }
      store.db := store.db.(orders := store.db.orders[i := order.(lines := lines, status := status)]);
      r := Ok(());
    }

    method ReceiveLoop(id: Id, lines: seq<OrderLine>, receipts: seq<Receipt>)
        returns (r: Result<()>, now: seq<OrderLine>, allReceived: bool)
      requires forall p :: p in store.db.products ==> store.db.products[p].stock >= 0
      requires forall k :: 0 <= k < |lines| ==> lines[k].qty > 0 && 0 <= lines[k].received <= lines[k].qty
      modifies store
      ensures r.Ok? <==> Deliverable(old(store.db).products, lines, receipts)
      ensures store.db == old(store.db).(products := store.db.products, movements := store.db.movements)
      ensures r.Ok? ==> LinesReceived(lines, receipts, now) && |now| == |lines|
      ensures r.Ok? ==> (allReceived <==> !LeftShort(lines, receipts))
      ensures r.Ok? ==> Stocked(StockroomOf(old(store.db)), lines, now, id, StockroomOf(store.db))
    {
      hide LinesReceived, StockRaised, MovedIn, Sum, ReceivingLine, Arrived, AllRestock, StillShort, LeftShort;
      ghost var begin := store.db;
      now, allReceived := lines, true;
      NothingShort(lines);
      NothingStocked(StockroomOf(begin), lines, id);
      for j := 0 to |receipts|
        invariant |now| == |lines| && LinesReceived(lines, receipts[..j], now)
        invariant allReceived <==> !LeftShort(lines, receipts[..j])
        invariant StockRaised(begin.products, lines, now, store.db.products)
        invariant MovedIn(begin.movements, lines, now, id, store.db.movements)
        invariant Deliverable(begin.products, lines, receipts[..j])
        invariant store.db == begin.(products := store.db.products, movements := store.db.movements)
      {
        var receipt := receipts[j];
        assert receipts[..j + 1] == receipts[..j] + [receipt];
        LinesStayWithin(lines, receipts[..j], now);
        LinesKeepProducts(lines, receipts[..j], now);
        SameReceivingLine(lines, now, receipt.product);
        var at := ReceivingLine(now, receipt.product);
        if receipt.qty <= 0 || at.None? {
          SkipReceipt(lines, receipts[..j], now, receipt);
          LeftShortMore(lines, receipts[..j], now, receipt);
          continue;
        }
        var k := at.value;
        var left := now[k].qty - now[k].received;
        if left <= 0 {
          if receipt.product !in begin.products && lines[k].received < lines[k].qty {
            GoneLineUntouched(begin.products, lines, receipts[..j], now, k);
          }
          SkipReceipt(lines, receipts[..j], now, receipt);
          LeftShortMore(lines, receipts[..j], now, receipt);
          continue;
        }
        var qty := receipt.qty;
        if qty > left {
          qty := left;
        }
        RaisedStock(begin.products, lines, now, store.db.products);
        ArrivedNonNegative(lines, receipts[..j], now, receipt.product);
        ghost var before := store.db;
        var ok := store.UpdateStock(receipt.product, qty);
        if !ok {
          assert !ReceiptDeliverable(begin.products, lines, receipts[j]);
          return Err(InsufficientStock), now, allReceived;
        }
        store.CreateStockMovement(Movement(receipt.product, Restock, qty, id));
        TakeReceipt(lines, receipts[..j], now, receipt, k);
        StockMore(begin.products, lines, now, before.products, k, qty, store.db.products);
        MovedMore(begin.movements, lines, now, id, before.movements, k, qty);
        now := now[k := now[k].(received := now[k].received + qty)];
        LeftShortMore(lines, receipts[..j], now, receipt);
        if now[k].received < now[k].qty {
          allReceived := false;
        }
      }
      assert receipts[..|receipts|] == receipts;
      r := Ok(());
    }

    /** `allReceived` comes in as the receiving loop left it; the scan can only clear it. */
    method ScanLines(lines: seq<OrderLine>, allReceived: bool) returns (full: bool, begun: bool)
      ensures full == (allReceived && Full(lines)) && begun == Begun(lines)
    {
      full, begun := allReceived, false;
      for k := 0 to |lines|
        invariant full <==> allReceived && forall j :: 0 <= j < k ==> lines[j].received >= lines[j].qty
        invariant begun <==> exists j :: 0 <= j < k && lines[j].received > 0
      {
        if lines[k].received < lines[k].qty {
          full := false;
        }
        if lines[k].received > 0 {
          begun := true;
        }
      }
    }

    method PayPurchaseOrder(id: Id, amount: Amount) returns (r: Result<()>)
      requires DbOk(store.db)
      modifies store
      ensures r.Ok? <==> CanPay(old(store.db), id, amount)
      ensures r.Ok? ==> var i := FindOrder(old(store.db).orders, id).value;
                        store.db == old(store.db).(orders := old(store.db).orders[i :=
                          old(store.db).orders[i].(paid := old(store.db).orders[i].paid + amount)])
      ensures r.Err? ==> store.db == old(store.db)
      ensures DbOk(store.db)
    {
      hide StoredSaleOk, SalesTableOk, ReferencesOk;
      if amount <= 0 {
        return Err(InvalidAmount);
      }
      var found := FindOrder(store.db.orders, id);
      if found.None? {
        return Err(OrderNotFound);
      }
      var i := found.value;
      var order := store.db.orders[i];
      assert OrderOk(order);
      if order.status == OrderCancelled {
        return Err(OrderIsCancelled);
      }
      var remaining := order.total - order.paid;
      if remaining <= 0 {
        return Err(FullyPaid);
      }
      if amount > remaining {
        return Err(ExceedsBalance);
      }
      ghost var begin := store.db;
      store.db := store.db.(orders := store.db.orders[i := order.(paid := order.paid + amount)]);
      OrderRewritten(begin, i, order.(paid := order.paid + amount), store.db);
      r := Ok(());
    }

    method CancelPurchaseOrder(id: Id) returns (r: Result<()>)
      requires DbOk(store.db)
      modifies store
      ensures r.Ok? <==> CanCancel(old(store.db), id)
      ensures r.Ok? ==> var i := FindOrder(old(store.db).orders, id).value;
                        store.db == old(store.db).(orders :=
                            old(store.db).orders[i := old(store.db).orders[i].(status := OrderCancelled)])
      ensures r.Err? ==> store.db == old(store.db)
      ensures DbOk(store.db)
    {
      hide StoredSaleOk, SalesTableOk, ReferencesOk;
      var found := FindOrder(store.db.orders, id);
      if found.None? {
        return Err(OrderNotFound);
      }
      var i := found.value;
      var order := store.db.orders[i];
      assert OrderOk(order);
      if order.status != OrderPending && order.status != OrderPartial {
        return Err(OrderNotCancellable);
      }
      ghost var begin := store.db;
      store.db := store.db.(orders := store.db.orders[i := order.(status := OrderCancelled)]);
      OrderRewritten(begin, i, order.(status := OrderCancelled), store.db);
      r := Ok(());
    }
  }
}
