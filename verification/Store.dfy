/** The database and the repositories' one-statement updates (internal/repository). A transaction is a run of these
    updates on the store; rolling back puts the earlier `db` value back. */
module Store {
  import opened Money
  import opened Domain

  datatype Db = Db(
    products: map<Id, Product>, customers: map<Id, Customer>, sales: seq<Sale>, payments: seq<Payment>,
    movements: seq<Movement>, shifts: seq<Shift>, cashMovements: seq<CashMovement>, orders: seq<Order>)

  /** CASE WHEN column - amount < 0 THEN 0 ELSE column - amount END */
  function Minus(column: int, amount: int): int
  {
    if column - amount < 0 then 0 else column - amount
  }

  /** The row of the sales table with this primary key. */
  function FindSale(sales: seq<Sale>, id: Id): (i: Option<nat>)
    ensures i.Some? ==> i.value < |sales| && sales[i.value].id == id
    ensures i.None? ==> forall k :: 0 <= k < |sales| ==> sales[k].id != id
  {
    if sales == [] then None
    else if sales[|sales| - 1].id == id then Some(|sales| - 1)
    else FindSale(sales[..|sales| - 1], id)
  }

  /** The first row of the shifts table that is open. */
  function ActiveShift(shifts: seq<Shift>): (i: Option<nat>)
    ensures i.Some? ==> i.value < |shifts| && shifts[i.value].isOpen
    ensures i.Some? ==> forall k :: 0 <= k < i.value ==> !shifts[k].isOpen
    ensures i.None? ==> forall k :: 0 <= k < |shifts| ==> !shifts[k].isOpen
  {
    if shifts == [] then None
    else if shifts[0].isOpen then Some(0)
    else match ActiveShift(shifts[1..])
      case None => None
      case Some(k) => Some(k + 1)
  }

  function FindShift(shifts: seq<Shift>, id: Id): (i: Option<nat>)
    ensures i.Some? ==> i.value < |shifts| && shifts[i.value].id == id
    ensures i.None? ==> forall k :: 0 <= k < |shifts| ==> shifts[k].id != id
  {
    if shifts == [] then None
    else if shifts[|shifts| - 1].id == id then Some(|shifts| - 1)
    else FindShift(shifts[..|shifts| - 1], id)
  }

  function FindOrder(orders: seq<Order>, id: Id): (i: Option<nat>)
    ensures i.Some? ==> i.value < |orders| && orders[i.value].id == id
    ensures i.None? ==> forall k :: 0 <= k < |orders| ==> orders[k].id != id
  {
    if orders == [] then None
    else if orders[|orders| - 1].id == id then Some(|orders| - 1)
    else FindOrder(orders[..|orders| - 1], id)
  }

  function AddSales(shift: Shift, total: Amount, cash: Amount, isNewSale: bool): Shift
  {
    shift.(totalSales := shift.totalSales + total,
           cashSales := shift.cashSales + cash,
           expectedBalance := shift.expectedBalance + cash,
           salesCount := if isNewSale then shift.salesCount + 1 else shift.salesCount)
  }

  function SubRefunds(shift: Shift, total: Amount, cash: Amount, isFullReturn: bool): Shift
  {
    shift.(totalSales := Minus(shift.totalSales, total),
           cashSales := Minus(shift.cashSales, cash),
           expectedBalance := Minus(shift.expectedBalance, cash),
           salesCount := if isFullReturn then Minus(shift.salesCount, 1) else shift.salesCount)
  }

  /** The shifts table after UpdateShiftSales: no-op without an open shift. */
  function ShiftsAfterSales(shifts: seq<Shift>, total: Amount, cash: Amount, isNewSale: bool): seq<Shift>
  {
    match ActiveShift(shifts)
    case None => shifts
    case Some(i) => shifts[i := AddSales(shifts[i], total, cash, isNewSale)]
  }

  /** The shifts table after UpdateShiftRefunds: no-op without an open shift. */
  function ShiftsAfterRefunds(shifts: seq<Shift>, total: Amount, cash: Amount, isFullReturn: bool): seq<Shift>
  {
    match ActiveShift(shifts)
    case None => shifts
    case Some(i) => shifts[i := SubRefunds(shifts[i], total, cash, isFullReturn)]
  }

  class Store {
    var db: Db

    constructor (db: Db)
      ensures this.db == db
    {
      this.db := db;
    }

    method DecrementPurchases(id: Id, amount: Amount)
      modifies this
      ensures id in old(db).customers ==> db == old(db).(customers := old(db).customers[id :=
                old(db).customers[id].(totalPurchases := Minus(old(db).customers[id].totalPurchases, amount))])
      ensures id !in old(db).customers ==> db == old(db)
    {
      if id in db.customers {
        var c := db.customers[id];
        db := db.(customers := db.customers[id := c.(totalPurchases := Minus(c.totalPurchases, amount))]);
      }
    }

    method AdjustPoints(id: Id, delta: int)
      modifies this
      ensures id in old(db).customers ==> db == old(db).(customers := old(db).customers[id :=
                old(db).customers[id].(points := if delta >= 0 then old(db).customers[id].points + delta
                                                 else Minus(old(db).customers[id].points, -delta))])
      ensures id !in old(db).customers ==> db == old(db)
    {
      if id in db.customers {
        var c := db.customers[id];
        db := db.(customers :=
            db.customers[id := c.(points := if delta >= 0 then c.points + delta else Minus(c.points, -delta))]);
      }
    }

    method DecrementDebt(id: Id, amount: Amount)
      modifies this
      ensures id in old(db).customers ==> db == old(db).(customers := old(db).customers[id :=
                old(db).customers[id].(debt := Minus(old(db).customers[id].debt, amount))])
      ensures id !in old(db).customers ==> db == old(db)
    {
      if id in db.customers {
        var c := db.customers[id];
        db := db.(customers := db.customers[id := c.(debt := Minus(c.debt, amount))]);
      }
    }

    method DecrementInstallmentDebt(id: Id, amount: Amount)
      modifies this
      ensures id in old(db).customers ==> db == old(db).(customers := old(db).customers[id :=
                old(db).customers[id].(installmentDebt := Minus(old(db).customers[id].installmentDebt, amount))])
      ensures id !in old(db).customers ==> db == old(db)
    {
      if id in db.customers {
        var c := db.customers[id];
        db := db.(customers := db.customers[id := c.(installmentDebt := Minus(c.installmentDebt, amount))]);
      }
    }

    method IncrementPurchasesAndDebt(id: Id, total: Amount, points: int, debt: Amount, installmentDebt: Amount)
      modifies this
      ensures id in old(db).customers ==> db == old(db).(customers := old(db).customers[id :=
                Charged(old(db).customers[id], total, points, debt, installmentDebt)])
      ensures id !in old(db).customers ==> db == old(db)
    {
      if id in db.customers {
        var c := db.customers[id];
        c := c.(totalPurchases := c.totalPurchases + total, points := c.points + points);
        if debt > 0 {
          c := c.(debt := c.debt + debt);
        }
        if installmentDebt > 0 {
          c := c.(installmentDebt := c.installmentDebt + installmentDebt);
        }
        db := db.(customers := db.customers[id := c]);
      }
    }

    /** UPDATE ... SET stock = stock + qty WHERE id = ? AND stock + qty >= 0; an untouched row count of zero is an
        error. */
    method UpdateStock(id: Id, qty: Milli) returns (ok: bool)
      modifies this
      ensures ok <==> id in old(db).products && old(db).products[id].stock + qty >= 0
      ensures ok ==> db == old(db).(products := old(db).products[id :=
                old(db).products[id].(stock := old(db).products[id].stock + qty)])
      ensures !ok ==> db == old(db)
    {
      ok := id in db.products && db.products[id].stock + qty >= 0;
      if ok {
        db := db.(products := db.products[id := db.products[id].(stock := db.products[id].stock + qty)]);
      }
    }

    method CreateStockMovement(movement: Movement)
      modifies this
      ensures db == old(db).(movements := old(db).movements + [movement])
    {
      db := db.(movements := db.movements + [movement]);
    }

    method CreatePayment(payment: Payment)
      modifies this
      ensures db == old(db).(payments := old(db).payments + [payment])
    {
      db := db.(payments := db.payments + [payment]);
    }

    method SaveSale(i: nat, sale: Sale)
      requires i < |db.sales|
      modifies this
      ensures db == old(db).(sales := old(db).sales[i := sale])
    {
      db := db.(sales := db.sales[i := sale]);
    }

    method UpdateShiftSales(total: Amount, cash: Amount, isNewSale: bool, requireShift: bool) returns (ok: bool)
      modifies this
      ensures ok <==> !(requireShift && ActiveShift(old(db).shifts).None?)
      ensures db == old(db).(shifts := ShiftsAfterSales(old(db).shifts, total, cash, isNewSale))
    {
      match ActiveShift(db.shifts) {
        case None => ok := !requireShift;
        case Some(i) =>
          db := db.(shifts := db.shifts[i := AddSales(db.shifts[i], total, cash, isNewSale)]);
          ok := true;
      }
    }

    method UpdateShiftRefunds(total: Amount, cash: Amount, isFullReturn: bool)
      modifies this
      ensures db == old(db).(shifts := ShiftsAfterRefunds(old(db).shifts, total, cash, isFullReturn))
    {
      match ActiveShift(db.shifts) {
        case None =>
        case Some(i) => db := db.(shifts := db.shifts[i := SubRefunds(db.shifts[i], total, cash, isFullReturn)]);
      }
    }
  }

  /** The customer row after IncrementPurchasesAndDebt: debts are only ever raised. */
  function Charged(c: Customer, total: Amount, points: int, debt: Amount, installmentDebt: Amount): Customer
  {
    Customer(if debt > 0 then c.debt + debt else c.debt,
             if installmentDebt > 0 then c.installmentDebt + installmentDebt else c.installmentDebt,
             c.totalPurchases + total, c.points + points)
  }
}
