/** The product cache beside the ledger. Which operations clear it is what the services' contracts say; see Shop. */
module CacheLaws {
  import opened Domain
  import opened Store
  import opened ProductCache
  import opened Ledger

  /** The operations whose service clears the cache once they succeed. */
  predicate Clears(op: Op)
  {
    op.Sell? || op.PartReturn? || op.FullReturn? || op.Receive? || op.Discontinue?
  }

  /** An operation, a product created or updated, or the catalogue read: from the cache, or from what the repository
      lists. */
  datatype Event = Perform(op: Op) | Edit(product: Id, row: Product) | Read(listing: Result<seq<Row>>, now: int)

  ghost predicate Happens(db: Db, c: Cache, e: Event, db': Db, c': Cache)
  {
    match e
    case Perform(op) => (db' == db && c' == c) || (Does(db, op, db') && c' == if Clears(op) then NO_CACHE else c)
    case Edit(p, row) => (db' == db && c' == c) || (db' == db.(products := db.products[p := row]) && c' == NO_CACHE)
    case Read(listing, now) =>
      db' == db && c' == AfterRead(c, listing, now) && (listing.Ok? ==> IsListing(db.products, listing.value))
  }

  /** Whatever does not clear the cache leaves every product alone. */
  lemma OthersKeepProducts(db: Db, op: Op, db': Db)
    requires Does(db, op, db') && !Clears(op)
    ensures db'.products == db.products
  {
    hide Does;
    if BackOffice(op) { BackOfficeFrame(db, op, db'); } else { PayFrame(db, op, db'); }
  }

  lemma StepIsCurrent(db: Db, c: Cache, e: Event, db': Db, c': Cache)
    requires Happens(db, c, e, db', c') && Current(db.products, c)
    ensures Current(db'.products, c')
  {
    hide Does, AfterRead, IsListing;
    match e
    case Perform(op) => if Does(db, op, db') && !Clears(op) { OthersKeepProducts(db, op, db'); }
    case Edit(_, _) =>
    case Read(listing, now) => ReadIsCurrent(db.products, c, listing, now);
  }

  /** However operations, edits and reads are interleaved, the cache never shows an outdated catalogue. */
  lemma {:induction false} CacheStaysCurrent(dbs: seq<Db>, caches: seq<Cache>, events: seq<Event>, k: nat)
    requires |dbs| == |caches| == |events| + 1 && k <= |events| && Current(dbs[0].products, caches[0])
    requires forall j :: 0 <= j < |events| ==> Happens(dbs[j], caches[j], events[j], dbs[j + 1], caches[j + 1])
    ensures Current(dbs[k].products, caches[k])
  {
    hide Happens, Current;
    if k > 0 {
      CacheStaysCurrent(dbs, caches, events, k - 1);
      StepIsCurrent(dbs[k - 1], caches[k - 1], events[k - 1], dbs[k], caches[k]);
    }
  }
}
