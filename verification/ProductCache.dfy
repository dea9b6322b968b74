/** The product service and its cache (internal/service/product_service.go). Images, suppliers and descriptions are left
    out. */
module ProductCache {
  import opened Money
  import opened Domain
  import opened Store

  type Catalogue = map<Id, Product>

  datatype Row = Row(id: Id, product: Product)

  const MAX_AGE: int := 300

  /** What the repository's listing returns: every product once, in some order. */
  ghost predicate IsListing(products: Catalogue, rows: seq<Row>)
  {
    && (forall k :: 0 <= k < |rows| ==> rows[k].id in products && products[rows[k].id] == rows[k].product)
    && (forall j, k :: 0 <= j < k < |rows| ==> rows[j].id != rows[k].id)
    && (forall p :: p in products ==> Lists(rows, p))
  }

  ghost predicate Lists(rows: seq<Row>, p: Id) { exists k :: 0 <= k < |rows| && rows[k].id == p }

  /** Rows by id, later ones in front. */
  ghost function ById(rows: seq<Row>): Catalogue
  {
    if rows == [] then map[] else ById(rows[..|rows| - 1])[rows[|rows| - 1].id := rows[|rows| - 1].product]
  }

  lemma {:induction false} ByIdIs(rows: seq<Row>, p: Id)
    requires forall j, k :: 0 <= j < k < |rows| ==> rows[j].id != rows[k].id
    ensures p in ById(rows) <==> Lists(rows, p)
    ensures forall k :: 0 <= k < |rows| && rows[k].id == p ==> p in ById(rows) && ById(rows)[p] == rows[k].product
  {
    if rows != [] {
      var last := |rows| - 1;
      ByIdIs(rows[..last], p);
      if Lists(rows[..last], p) {
        var k :| 0 <= k < last && rows[..last][k].id == p;
        assert rows[k].id == p;
      }
      if rows[last].id == p { assert Lists(rows, p); }
    }
  }

  lemma ListingById(products: Catalogue, rows: seq<Row>)
    requires IsListing(products, rows)
    ensures ById(rows) == products
  {
    forall p ensures p in ById(rows) <==> p in products { ByIdIs(rows, p); }
    forall p | p in products ensures ById(rows)[p] == products[p] { ByIdIs(rows, p); }
  }

  /** `list` is None for Go's nil slice. */
  datatype Cache = Cache(list: Option<seq<Row>>, byId: Catalogue, filledAt: int)

  const NO_CACHE := Cache(None, map[], 0)

  /** A filled cache lists the catalogue and looks products up in it; an empty one finds nothing. */
  ghost predicate Current(products: Catalogue, c: Cache)
  {
    && (c.list.Some? ==> IsListing(products, c.list.value) && c.byId == products)
    && (c.list.None? ==> c.byId == map[])
  }

  predicate FreshEnough(c: Cache, now: int) { c.list.Some? && now - c.filledAt < MAX_AGE }

  /** The cache after a listing was asked for, whatever the repository then answers. */
  ghost function AfterRead(c: Cache, listing: Result<seq<Row>>, now: int): Cache
  {
    if FreshEnough(c, now) || listing.Err? then c else Cache(Some(listing.value), ById(listing.value), now)
  }

  /** Refilled from the repository's listing of the catalogue, the cache is current. */
  lemma ReadIsCurrent(products: Catalogue, c: Cache, listing: Result<seq<Row>>, now: int)
    requires Current(products, c) && (listing.Ok? ==> IsListing(products, listing.value))
    ensures Current(products, AfterRead(c, listing, now))
  {
    if listing.Ok? { ListingById(products, listing.value); }
  }

  class ProductService {
    const store: Store
    var cacheList: Option<seq<Row>>
    var cacheMap: Catalogue
    var lastUpdate: int

    ghost function State(): Cache
      reads this
    {
      Cache(cacheList, cacheMap, lastUpdate)
    }

    constructor (store: Store)
      ensures this.store == store && State() == NO_CACHE
    {
      this.store := store;
      cacheList, cacheMap, lastUpdate := None, map[], 0;
    }

    method ClearCache()
      modifies this
      ensures State() == NO_CACHE
    {
      cacheList, cacheMap, lastUpdate := None, map[], 0;
    }

    /** From the cache while it is younger than five minutes; otherwise `listing`, the repository's answer, refills
        it. */
    method GetAllProducts(listing: Result<seq<Row>>, now: int) returns (r: Result<seq<Row>>)
      modifies this
      ensures State() == AfterRead(old(State()), listing, now)
      ensures r.Ok? ==> State().list == Some(r.value)
      ensures if old(cacheList).Some? && now - old(lastUpdate) < 300 then r == Ok(old(cacheList).value)
              else r == listing && (listing.Ok? ==> cacheList == Some(listing.value) && lastUpdate == now)
    {
      if cacheList.Some? && now - lastUpdate < MAX_AGE { return Ok(cacheList.value); }
      if listing.Err? { return listing; }
      var byId := Index(listing.value);
      cacheList, cacheMap, lastUpdate := Some(listing.value), byId, now;
      r := listing;
    }

    method Index(rows: seq<Row>) returns (byId: Catalogue)
      ensures byId == ById(rows)
    {
      byId := map[];
      for k := 0 to |rows|
        invariant byId == ById(rows[..k])
      {
        assert rows[..k + 1][..k] == rows[..k];
        byId := byId[rows[k].id := rows[k].product];
      }
      assert rows[..|rows|] == rows;
    }

    /** The same answer as the repository, cached or not. */
    method GetProductByID(id: Id, now: int) returns (r: Result<Product>)
      requires Current(store.db.products, State())
      ensures r.Ok? <==> id != NoId && id in store.db.products
      ensures r.Ok? ==> r.value == store.db.products[id]
    {
      if id == NoId { return Err(ProductNotFound); }
      if |cacheMap| > 0 && now - lastUpdate < MAX_AGE {
        if id in cacheMap { return Ok(cacheMap[id]); }
      }
      r := if id in store.db.products then Ok(store.db.products[id]) else Err(ProductNotFound);
    }

    /** `freshId` is used when the product arrives without an id. */
    method CreateProduct(id: Id, freshId: Id, name: string, cost: Amount, product: Product) returns (r: Result<()>)
      modifies this, store
      ensures var key := if id == NoId then freshId else id;
              && (r.Ok? <==> name != "" && product.price >= 0 && cost >= 0 && product.stock >= 0
                             && key !in old(store.db).products)
              && (r.Ok? ==> store.db == old(store.db).(products := old(store.db).products[key := product])
                            && State() == NO_CACHE)
      ensures r.Err? ==> store.db == old(store.db) && State() == old(State())
    {
      if name == "" || product.price < 0 || cost < 0 || product.stock < 0 { return Err(InvalidAmount); }
      var key := if id == NoId then freshId else id;
      if key in store.db.products { return Err(DuplicateId); }
      store.db := store.db.(products := store.db.products[key := product]);
      ClearCache();
      r := Ok(());
    }

    method UpdateProduct(id: Id, cost: Amount, product: Product) returns (r: Result<()>)
      modifies this, store
      ensures r.Ok? <==>
                id != NoId && product.price >= 0 && cost >= 0 && product.stock >= 0 && id in old(store.db).products
      ensures r.Ok? ==> store.db == old(store.db).(products := old(store.db).products[id := product])
      ensures r.Ok? ==> State() == NO_CACHE
      ensures r.Err? ==> store.db == old(store.db) && State() == old(State())
    {
      if id == NoId || product.price < 0 || cost < 0 || product.stock < 0 { return Err(InvalidAmount); }
      if id !in store.db.products { return Err(ProductNotFound); }
      store.db := store.db.(products := store.db.products[id := product]);
      ClearCache();
      r := Ok(());
    }

    method DeleteProduct(id: Id) returns (r: Result<()>)
      modifies this, store
      ensures r.Ok? <==> id != NoId && id in old(store.db).products
      ensures r.Ok? ==> store.db == old(store.db).(products := old(store.db).products - {id}) && State() == NO_CACHE
      ensures r.Err? ==> store.db == old(store.db) && State() == old(State())
    {
      if id == NoId || id !in store.db.products { return Err(ProductNotFound); }
      store.db := store.db.(products := store.db.products - {id});
      ClearCache();
      r := Ok(());
    }
  }
}
