/** The services wired together over one database and one product cache. Every call is a step of the ledger and an event
    of the cache: the runs that the laws speak of are the runs of these services. */
module Shop {
  import opened Money
  import opened Domain
  import opened Store
  import opened Books
  import opened Ledger
  import opened ProductCache
  import opened CacheLaws
  import opened SellingSteps
  import opened PartialReturnSteps
  import opened FullReturnSteps
  import opened PaymentSteps
  import opened FinanceSteps
  import opened FinanceService
  import opened CustomerSteps
  import opened CrmService
  import opened SaleService
  import opened PaymentService

  class Shop {
    const store: Store
    const products: ProductService
    const sales: SaleService
    const payments: PaymentService
    const finance: FinanceService
    const customers: CrmService

    constructor (db: Db)
      requires DbOk(db)
      ensures Valid() && store.db == db
    {
      var s := new Store(db);
      var p := new ProductService(s);
      var sale := new SaleService(s, p);
      var payment := new PaymentService(s);
      var back := new FinanceService(s, p);
      var crm := new CrmService(s);
      store, products, sales, payments, finance, customers := s, p, sale, payment, back, crm;
    }

    ghost predicate Valid()
      reads this, store, products
    {
      && products.store == store && sales.store == store && payments.store == store && finance.store == store
      && customers.store == store
      && sales.products == products && finance.products == products
      && DbOk(store.db) && Current(store.db.products, products.State())
    }

    /** Asks the service for `asked`, which is not about customers: those are saved by Save. `op` is what was done: for
        a full return it also names the legs that Go's map order chose. */
    method Perform(asked: Op) returns (r: Result<()>, ghost op: Op)
      requires Valid() && Fresh(store.db, asked) && !asked.Enrol?
      modifies store, products
      ensures Valid() && (op == asked || (asked.FullReturn? && op.FullReturn? && op.id == asked.id))
      ensures Happens(old(store.db), old(products.State()), Event.Perform(op), store.db, products.State())
      ensures r.Ok? ==> Does(old(store.db), op, store.db)
      ensures r.Err? ==> store.db == old(store.db)
      ensures Step(old(store.db), op, store.db)
    {
      hide Does, Fresh, DbOk, Current;
      ghost var db, c := store.db, products.State();
      if !BackOffice(asked) {
        r, op := FrontDesk(asked);
      } else if asked.Receive? || asked.Discontinue? {
        op := asked;
        r := Stockroom(asked);
      } else {
        op := asked;
        r := Office(asked);
      }
      assert Happens(db, c, Event.Perform(op), store.db, products.State());
      StepIsCurrent(db, c, Event.Perform(op), store.db, products.State());
    }

    method FrontDesk(asked: Op) returns (r: Result<()>, ghost op: Op)
      requires Valid() && Fresh(store.db, asked) && !BackOffice(asked) && !asked.Enrol?
      modifies store, products
      ensures r.Ok? ==> Does(old(store.db), op, store.db)
      ensures r.Err? ==> store.db == old(store.db)
      ensures DbOk(store.db)
      ensures products.State() == if r.Ok? && Clears(asked) then NO_CACHE else old(products.State())
      ensures (op == asked || (asked.FullReturn? && op.FullReturn? && op.id == asked.id))
    {
      hide DbOk, Sold, PartlyReturned, FullyReturned, Recorded, Collects, CanSell, CanReturn, CanReturnPart, CanRecord,
           CanCollect, Current, SentReturnsOk;
      op := asked;
      match asked
      case Sell(cart, till) => r := sales.ProcessSale(cart, till);
      case PartReturn(id, product, qty) => r := sales.ReturnSalePartial(id, product, qty);
      case FullReturn(id, _) =>
        ghost var legs;
        r, legs := sales.ReturnSale(id);
        op := asked.(legs := legs);
      case Pay(q) => r := payments.CreatePayment(q);
      case Collect(q) => r := payments.PayInstallment(q);
    }

    method Stockroom(asked: Op) returns (r: Result<()>)
      requires Valid() && Fresh(store.db, asked) && (asked.Receive? || asked.Discontinue?)
      modifies store, products
      ensures r.Ok? ==> Does(old(store.db), asked, store.db)
      ensures r.Err? ==> store.db == old(store.db)
      ensures DbOk(store.db)
      ensures products.State() == if r.Ok? && Clears(asked) then NO_CACHE else old(products.State())
    {
      hide DbOk, Received, Current, CanReceive, Deliverable;
      if asked.Receive? {
        r := finance.ReceivePurchaseOrder(asked.order, asked.receipts);
      } else {
        ghost var db := store.db;
        r := products.DeleteProduct(asked.product);
        if r.Ok? { OtherStepKeepsDb(db, asked, store.db); }
      }
    }

    method Office(asked: Op) returns (r: Result<()>)
      requires Valid() && Fresh(store.db, asked) && BackOffice(asked) && !asked.Receive? && !asked.Discontinue?
      modifies store, products
      ensures r.Ok? ==> Does(old(store.db), asked, store.db)
      ensures r.Err? ==> store.db == old(store.db)
      ensures DbOk(store.db)
      ensures products.State() == if r.Ok? && Clears(asked) then NO_CACHE else old(products.State())
    {
      hide DbOk, Opened, Closed, Current, CanClose;
      match asked
      case Open(shift, staff, opening) => r := finance.OpenShift(shift, staff, opening);
      case Close(shift, closing, closer) => r := finance.CloseShift(shift, closing, closer);
      case MoveCash(m) => r := finance.AddCashMovement(m.shift, if m.isIn then CashInType else CashOutType, m.amount);
      case CreateOrder(order, supplier, lines) => r := finance.CreatePurchaseOrder(order, supplier, lines);
      case PayOrder(order, amount) => r := finance.PayPurchaseOrder(order, amount);
      case CancelOrder(order) => r := finance.CancelPurchaseOrder(order);
    }

    /** Saves a customer: a step of the ledger when it puts one on file, and no change to it otherwise. */
    method Save(id: Id, freshId: Id, nameBytes: nat, phoneAccepted: bool, row: Customer) returns (r: Result<()>)
      requires Valid() && freshId != NoId && freshId !in store.db.customers && CustomerOk(row)
      modifies store
      ensures Valid() && Step(old(store.db), Enrol(freshId, row), store.db)
      ensures r.Err? || id != NoId ==> store.db == old(store.db)
    {
      hide DbOk, Current;
      r := customers.SaveCustomer(id, freshId, nameBytes, phoneAccepted, row);
    }

    /** Creates or updates a product: an event of the cache that keeps the books well formed. */
    method Create(id: Id, freshId: Id, name: string, cost: Amount, row: Product) returns (r: Result<()>)
      requires Valid()
      modifies store, products
      ensures Valid()
      ensures Happens(old(store.db), old(products.State()), Edit(if id == NoId then freshId
                else id, row), store.db, products.State())
    {
      hide DbOk, Current;
      ghost var db, c := store.db, products.State();
      r := products.CreateProduct(id, freshId, name, cost, row);
      if r.Ok? { EditKeepsDb(db, if id == NoId then freshId else id, row, store.db); }
      StepIsCurrent(db, c, Edit(if id == NoId then freshId else id, row), store.db, products.State());
    }

    method Update(id: Id, cost: Amount, row: Product) returns (r: Result<()>)
      requires Valid()
      modifies store, products
      ensures Valid()
      ensures Happens(old(store.db), old(products.State()), Edit(id, row), store.db, products.State())
    {
      hide DbOk, Current;
      ghost var db, c := store.db, products.State();
      r := products.UpdateProduct(id, cost, row);
      if r.Ok? { EditKeepsDb(db, id, row, store.db); }
      StepIsCurrent(db, c, Edit(id, row), store.db, products.State());
    }

    /** `listing` is the repository's answer, should it be asked. The catalogue shown is always the current one. */
    method List(listing: Result<seq<Row>>, now: int) returns (r: Result<seq<Row>>)
      requires Valid() && (listing.Ok? ==> IsListing(store.db.products, listing.value))
      modifies products
      ensures Valid()
      ensures Happens(store.db, old(products.State()), Read(listing, now), store.db, products.State())
      ensures r.Ok? ==> IsListing(store.db.products, r.value)
    {
      hide DbOk, IsListing, AfterRead;
      ghost var c := products.State();
      r := products.GetAllProducts(listing, now);
      StepIsCurrent(store.db, c, Read(listing, now), store.db, products.State());
    }
  }

  lemma EditKeepsDb(db: Db, p: Id, row: Product, db': Db)
    requires DbOk(db) && row.stock >= 0 && db' == db.(products := db.products[p := row])
    ensures DbOk(db')
  {
    hide StoredSaleOk, SalesTableOk, ReferencesOk, OrderOk, CustomerOk;
    SameTables(db, db');
  }
}
