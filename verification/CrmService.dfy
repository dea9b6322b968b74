/** Customers (SaveCustomer, internal/service/crm_service.go). */
module CrmService {
  import opened Domain
  import opened Store
  import opened Books
  import opened CustomerSteps

  class CrmService {
    const store: Store

    constructor (store: Store)
      ensures this.store == store
    {
      this.store := store;
    }

    /** Without an id a customer is created; with one only name, phone and notes change, which the ledger does not hold.
        `phoneAccepted`: no phone, or a well-formed one that is nobody else's. */
    method SaveCustomer(id: Id, freshId: Id, nameBytes: nat, phoneAccepted: bool, row: Customer) returns (r: Result<()>)
      requires DbOk(store.db) && freshId != NoId && freshId !in store.db.customers
      modifies store
      ensures r.Ok? <==>
                && nameBytes >= 2 && phoneAccepted
                && if id == NoId then row.debt == 0 else id in old(store.db).customers
      ensures r.Ok? && id == NoId ==> Enrolled(old(store.db), freshId, row, store.db)
      ensures r.Err? || id != NoId ==> store.db == old(store.db)
      ensures DbOk(store.db) <==> r.Err? || id != NoId || CustomerOk(row)
    {
      if nameBytes < 2 || !phoneAccepted { return Err(InvalidAmount); }
      if id == NoId {
        if row.debt != 0 { return Err(InvalidAmount); }
        ghost var begin := store.db;
        store.db := store.db.(customers := store.db.customers[freshId := row]);
        EnrolKeepsDbIff(begin, freshId, row, store.db);
        return Ok(());
      }
      r := if id in store.db.customers then Ok(()) else Err(CustomerNotFound);
    }
  }
}
