/** What the sale operations share. */
module SaleSteps {
  import opened Money
  import opened Domain
  import opened Sums
  import opened Refunds
  import opened Store
  import opened Books

  /** Returned goods go back to stock with a movement, unless the product has been deleted. */
  ghost predicate GoodsBack(products: map<Id, Product>, movements: seq<Movement>, product: Id, qty: Milli,
                            kind: MovementKind, id: Id,
                            products': map<Id, Product>, movements': seq<Movement>)
  {
    if product in products then
      && products' == products[product := products[product].(stock := products[product].stock + qty)]
      && movements' == movements + [Movement(product, kind, qty, id)]
    else products' == products && movements' == movements
  }

  /** The part of a cash refund that the open shift's takings do not cover. */
  function Uncovered(shifts: seq<Shift>, cash: Amount): Amount
  {
    match ActiveShift(shifts)
    case None => 0
    case Some(k) => if cash > shifts[k].cashSales then cash - shifts[k].cashSales else 0
  }

  /** A refund of `cash` widens the drawer gap by exactly what the takings do not cover: the clamp swallows it. */
  lemma DrawerAfterRefund(db: Db, db': Db, total: Amount, cash: Amount, isFullReturn: bool)
    requires ShiftsOk(db) && ShiftsOk(db')
    requires db.payments <= db'.payments && Sum(db'.payments[|db.payments|..], CashIn()) == -cash
    requires db'.shifts == ShiftsAfterRefunds(db.shifts, total, cash, isFullReturn)
    ensures DrawerGap(db') == DrawerGap(db) + Uncovered(db.shifts, cash)
  {
    hide Sum;
    match ActiveShift(db.shifts)
    case None =>
    case Some(k) =>
      SameActive(db.shifts, db'.shifts);
      CashSince(db, db', k);
  }

  /** Cash counted into the open shift together with its rows leaves the drawer law alone. */
  lemma DrawerAfterSales(db: Db, db': Db, total: Amount, cash: Amount, isNewSale: bool)
    requires ShiftsOk(db) && ShiftsOk(db')
    requires db.payments <= db'.payments && Sum(db'.payments[|db.payments|..], CashIn()) == cash
    requires db'.shifts == ShiftsAfterSales(db.shifts, total, cash, isNewSale)
    ensures DrawerGap(db') == DrawerGap(db)
  {
    hide Sum;
    match ActiveShift(db.shifts)
    case None =>
    case Some(k) =>
      SameActive(db.shifts, db'.shifts);
      CashSince(db, db', k);
  }

  lemma SameActive(shifts: seq<Shift>, shifts': seq<Shift>)
    requires |shifts'| == |shifts| && forall k :: 0 <= k < |shifts| ==> shifts'[k].isOpen == shifts[k].isOpen
    ensures ActiveShift(shifts') == ActiveShift(shifts)
  {
    match ActiveShift(shifts)
    case None =>
    case Some(k) => assert shifts'[k].isOpen;
  }

  lemma CashSince(db: Db, db': Db, k: nat)
    requires ShiftsOk(db) && k < |db.shifts| && db.payments <= db'.payments
    ensures db.shifts[k].openedAt <= |db.payments|
    ensures Sum(db'.payments[db.shifts[k].openedAt..], CashIn())
              == Sum(db.payments[db.shifts[k].openedAt..], CashIn()) + Sum(db'.payments[|db.payments|..], CashIn())
  {
    hide Sum;
    var at := db.shifts[k].openedAt;
    assert db'.payments[at..] == db.payments[at..] + db'.payments[|db.payments|..];
    SumConcat(db.payments[at..], db'.payments[|db.payments|..], CashIn());
  }

  function Min(a: int, b: int): int { if a < b then a else b }

  /** Rewriting one invoice, with its key, customer, method and split kept, keeps the sales table. */
  lemma SaleRewritten(db: Db, i: nat, sale: Sale, db': Db)
    requires SalesTableOk(db) && i < |db.sales| && db'.sales == db.sales[i := sale]
    requires SaleOk(sale) && sale.total <= db.sales[i].total
    requires sale.id == db.sales[i].id && sale.customer == db.sales[i].customer
    requires sale.payMethod == db.sales[i].payMethod && sale.split == db.sales[i].split
    requires PlanOk(sale) && PaidOk(sale) && ScheduleOk(sale)
    requires db'.customers.Keys == db.customers.Keys
    ensures SalesTableOk(db')
  {
    forall k | 0 <= k < |db'.sales| ensures StoredSaleOk(db', db'.sales[k]) {
      assert StoredSaleOk(db, db.sales[k]);
    }
  }

  lemma SamePlan(a: Sale, b: Sale)
    requires PlanOk(a) && a.payMethod == b.payMethod && a.plan == b.plan
    ensures PlanOk(b) && (b.status != Paid ==> PaidOk(b)) && (!Collectable(b) ==> ScheduleOk(b))
  {
    assert Schedule(a) == Schedule(b);
  }

  lemma SaleStored(db: Db, i: nat)
    requires SalesTableOk(db) && i < |db.sales|
    ensures StoredSaleOk(db, db.sales[i]) && SaleExists(db, db.sales[i].id)
  {
  }

  lemma SameReferences(db: Db, db': Db, id: Id)
    requires ReferencesOk(db) && |db'.sales| == |db.sales| && SaleExists(db, id)
    requires forall k :: 0 <= k < |db.sales| ==> db'.sales[k].id == db.sales[k].id
    requires db.payments <= db'.payments && db.movements <= db'.movements
    requires var rows := db'.payments[|db.payments|..]; forall k :: 0 <= k < |rows| ==> rows[k].sale == id
    requires var ms := db'.movements[|db.movements|..]; forall k :: 0 <= k < |ms| ==> ms[k].ref == id
    ensures ReferencesOk(db')
  {
    SameSales(db, db', id);
    forall k | 0 <= k < |db'.payments| ensures db'.payments[k].sale == NoId || SaleExists(db', db'.payments[k].sale) {
      if k < |db.payments| {
        assert db'.payments[k] == db.payments[k];
        if db.payments[k].sale != NoId { SameSales(db, db', db.payments[k].sale); }
      } else {
        assert db'.payments[k] == db'.payments[|db.payments|..][k - |db.payments|];
      }
    }
    forall k | 0 <= k < |db'.movements|
      ensures db'.movements[k].kind == Restock || SaleExists(db', db'.movements[k].ref) {
      if k < |db.movements| {
        assert db'.movements[k] == db.movements[k];
        if db.movements[k].kind != Restock { SameSales(db, db', db.movements[k].ref); }
      } else {
        assert db'.movements[k] == db'.movements[|db.movements|..][k - |db.movements|];
      }
    }
  }

  lemma SameSales(db: Db, db': Db, id: Id)
    requires SaleExists(db, id) && |db.sales| <= |db'.sales|
    requires forall k :: 0 <= k < |db.sales| ==> db'.sales[k].id == db.sales[k].id
    ensures SaleExists(db', id)
  {
    var k :| 0 <= k < |db.sales| && db.sales[k].id == id;
    assert db'.sales[k].id == id;
  }

  /** New rows name a customer on file, or nobody. */
  lemma PayersGrow(db: Db, db': Db, who: Id)
    requires PayersOk(db.payments, db.customers) && db.payments <= db'.payments
    requires db.customers.Keys <= db'.customers.Keys && (who == NoId || who in db'.customers)
    requires var rows := db'.payments[|db.payments|..]; forall k :: 0 <= k < |rows| ==> rows[k].customer == who
    ensures PayersOk(db'.payments, db'.customers)
  {
    forall k | 0 <= k < |db'.payments|
      ensures db'.payments[k].customer == NoId || db'.payments[k].customer in db'.customers {
      if k < |db.payments| {
        assert db'.payments[k] == db.payments[k];
      } else {
        assert db'.payments[k] == db'.payments[|db.payments|..][k - |db.payments|];
      }
    }
  }

  /** Counting sales or refunds into the open shift moves nothing the shifts table is keyed by. */
  lemma ShiftsCounted(db: Db, db': Db)
    requires ShiftsOk(db) && |db'.shifts| == |db.shifts| && |db.payments| <= |db'.payments|
    requires forall k :: 0 <= k < |db.shifts| ==>
               db'.shifts[k].isOpen == db.shifts[k].isOpen && db'.shifts[k].openedAt == db.shifts[k].openedAt
                   && db'.shifts[k].id == db.shifts[k].id && db'.shifts[k].cashSales >= 0
    ensures ShiftsOk(db')
  {
  }

  lemma ReturnKeepsShifts(db: Db, db': Db, total: Amount, cash: Amount, full: bool)
    requires ShiftsOk(db) && |db.payments| <= |db'.payments|
    requires db'.shifts == db.shifts || db'.shifts == ShiftsAfterRefunds(db.shifts, total, cash, full)
    ensures ShiftsOk(db')
  {
    ShiftsCounted(db, db');
  }
}
