/** Recording payments and collecting installments (internal/service/payment_service.go). */
module PaymentService {
  import opened Money
  import opened Domain
  import opened Sums
  import opened Store
  import opened Books
  import opened SaleSteps
  import opened PartialReturnLaws
  import opened PaymentSteps

  class PaymentService {
    const store: Store

    constructor (store: Store)
      ensures this.store == store
    {
      this.store := store;
    }

    /** createPayment, for CreatePayment and CreatePaymentForced alike. */
    method CreatePayment(q: PaymentRequest) returns (r: Result<()>)
      requires DbOk(store.db)
      modifies store
      ensures r.Ok? <==> CanRecord(old(store.db), q)
      ensures r.Ok? ==> Recorded(old(store.db), q, store.db)
      ensures r.Err? ==> store.db == old(store.db)
      ensures DbOk(store.db)
    {
      if q.amount <= 0 {
        return Err(InvalidAmount);
      }
      var begin := store.db;
      r := CreatePaymentTx(q);
      if r.Err? {
        store.db := begin;
      } else {
        RecordKeepsDb(begin, q, store.db);
      }
    }

    method CreatePaymentTx(q: PaymentRequest) returns (r: Result<()>)
      requires DbOk(store.db) && q.amount > 0
      modifies store
      ensures r.Ok? <==> CanRecord(old(store.db), q)
      ensures r.Ok? ==> Recorded(old(store.db), q, store.db)
    {
      hide StoredSaleOk, ReferencesOk, ShiftsOk;
      if q.customer != NoId {
        if q.customer !in store.db.customers {
          return Err(CustomerNotFound);
        }
        var debt := store.db.customers[q.customer].debt;
        if !q.forced && debt >= 0 && q.amount > debt {
          return Err(ExceedsDebt);
        }
      }
      if q.sale != NoId {
        var found := FindSale(store.db.sales, q.sale);
        if found.None? {
          return Err(SaleNotFound);
        }
        var sale := store.db.sales[found.value];
        if sale.status == Returned || sale.status == PartiallyReturned {
          return Err(SaleIsReturned);
        }
        if sale.payMethod == Installments {
          return Err(UsePayInstallment);
        }
      }
      store.CreatePayment(Payment(q.sale, q.customer, q.amount, q.payMethod, UserRow));
      if q.customer != NoId {
        store.DecrementDebt(q.customer, q.amount);
      }
      if q.payMethod == Cash {
        var counted := store.UpdateShiftSales(0, q.amount, false, q.requireShift);
        if !counted {
          return Err(NoOpenShift);
        }
      }
      r := Ok(());
    }

    method PayInstallment(q: Collection) returns (r: Result<()>)
      requires DbOk(store.db)
      modifies store
      ensures r.Ok? <==> CanCollect(old(store.db), q)
      ensures r.Ok? ==> Collects(old(store.db), q, store.db)
      ensures r.Err? ==> store.db == old(store.db)
      ensures DbOk(store.db)
    {
      if q.amount <= 0 {
        return Err(InvalidAmount);
      }
      var begin := store.db;
      r := PayInstallmentTx(q);
      if r.Err? {
        store.db := begin;
      } else {
        CollectKeepsDb(begin, q, store.db);
      }
    }

    method PayInstallmentTx(q: Collection) returns (r: Result<()>)
      requires DbOk(store.db) && q.amount > 0
      modifies store
      ensures r.Ok? <==> CanCollect(old(store.db), q)
      ensures r.Ok? ==> Collects(old(store.db), q, store.db)
    {
      hide StoredSaleOk, ReferencesOk, ShiftsOk;
      var found := FindSale(store.db.sales, q.sale);
      if found.None? {
        return Err(SaleNotFound);
      }
      var i := found.value;
      var sale := store.db.sales[i];
      if sale.status == Returned || sale.status == PartiallyReturned {
        return Err(SaleIsReturned);
      }
      if sale.plan.None? {
        return Err(NoPlan);
      }
      if sale.plan.value.schedule.None? || q.index < 0 || q.index >= |sale.plan.value.schedule.value| {
        return Err(InvalidIndex);
      }
      var schedule := sale.plan.value.schedule.value;
      if schedule[q.index].paid {
        return Err(AlreadyPaid);
      }
      var required := schedule[q.index].amount;
      if q.amount != required && q.amount * 100 != required && q.amount != required * 100 {
        return Err(ExactAmountRequired);
      }
      schedule := schedule[q.index := schedule[q.index].(paid := true)];
      var allPaid := AllPaidLoop(schedule);
      var paid := sale.(plan := Some(sale.plan.value.(schedule := Some(schedule))),
                        status := if allPaid then Paid else sale.status);
      store.SaveSale(i, paid);
      store.CreatePayment(Payment(q.sale, sale.customer, required, q.payMethod, InstallmentRow(q.index)));
      if sale.customer != NoId {
        store.DecrementInstallmentDebt(sale.customer, required);
      }
      if q.payMethod == Cash {
        var counted := store.UpdateShiftSales(0, required, false, q.requireShift);
        if !counted {
          return Err(NoOpenShift);
        }
      }
      r := Ok(());
    }

    method AllPaidLoop(schedule: seq<Installment>) returns (all: bool)
      ensures all == AllPaid(schedule)
    {
      for k := 0 to |schedule|
        invariant forall j :: 0 <= j < k ==> schedule[j].paid
      {
        if !schedule[k].paid {
          return false;
        }
      }
      all := true;
    }

    /** Entries, entries paid and amount remaining. For an invoice nothing of which was returned, what remains is what
        is outstanding. */
    method GetInstallmentSummary(id: Id) returns (r: Result<(nat, nat, Amount)>)
      requires DbOk(store.db)
      ensures r.Ok? <==> FindSale(store.db.sales, id).Some?
      ensures r.Ok? ==>
                var sale := SaleAt(store.db, id);
                r.value.0 == |Schedule(sale)| && r.value.2 == Sum(Schedule(sale), EntryAmount(false))
                && (r.value.1 == r.value.0 <==> AllPaid(Schedule(sale)))
      ensures r.Ok? && SaleAt(store.db, id).payMethod == Installments && Collectable(SaleAt(store.db, id)) ==>
                var sale := SaleAt(store.db, id);
                sale.plan.Some? && sale.plan.value.schedule.Some? ==> r.value.2 == Outstanding(sale)
    {
      var found := FindSale(store.db.sales, id);
      if found.None? {
        return Err(SaleNotFound);
      }
      var sale := store.db.sales[found.value];
      if sale.plan.None? || sale.plan.value.schedule.None? {
        return Ok((0, 0, 0));
      }
      var schedule := sale.plan.value.schedule.value;
      var paid, remaining := Summarise(schedule);
      SaleStored(store.db, found.value);
      if sale.payMethod == Installments && Collectable(sale) {
        OutstandingIsUnpaid(sale);
      }
      r := Ok((|schedule|, paid, remaining));
    }

    method Summarise(schedule: seq<Installment>) returns (paid: nat, remaining: Amount)
      ensures remaining == Sum(schedule, EntryAmount(false)) && paid <= |schedule|
      ensures paid == |schedule| <==> AllPaid(schedule)
    {
      paid, remaining := 0, 0;
      for k := 0 to |schedule|
        invariant paid <= k && remaining == Sum(schedule[..k], EntryAmount(false))
        invariant paid == k <==> AllPaid(schedule[..k])
      {
        assert schedule[..k + 1] == schedule[..k] + [schedule[k]];
        SumAppend(schedule[..k], schedule[k], EntryAmount(false));
        if schedule[k].paid {
          paid := paid + 1;
        } else {
          remaining := remaining + schedule[k].amount;
        }
        assert AllPaid(schedule[..k + 1]) <==> AllPaid(schedule[..k]) && schedule[k].paid;
      }
      assert schedule[..|schedule|] == schedule;
    }
  }
}
