/** The catalog routes (apps/api/src/routes/sale.ts): GET `/` answers the sale
    listing built by one joined query, GET `/shop` the product table. */
module SaleRoute {
  import opened Wrappers
  import opened Catalog
  import opened PrioritySort
  import opened SeqUtil

  /** What a handler sends: a JSON body with status 200, or an error status
      with an `{error}` body. */
  datatype Response<T> = Json(body: T) | ServerError(status: int, error: string)

  const SaleFailure := "Failed to fetch sale products"
  const ShopFailure := "Failed to fetch shop products"

  /** The outcome of one query: its rows, or a data-access fault. */
  datatype Query<T> = Rows(rows: T) | Fault

  /** The catalog store as the handlers reach it: its tables, and the number
      of queries sent to it so far. Whether a query faults is decided outside
      the model and passed in. */
  class CatalogStore {
    var tables: Tables
    var queries: nat

    constructor (tables: Tables)
      ensures this.tables == tables && queries == 0
    {
      this.tables := tables;
      queries := 0;
    }

    /** The joined sale query, sent as a single query. */
    method SelectSaleRows(fault: bool) returns (r: Query<seq<JoinedRow>>)
      modifies this`queries
      ensures queries == old(queries) + 1
      ensures r == if fault then Fault else Rows(SaleJoin(tables))
    {
      queries := queries + 1;
      r := if fault then Fault else Rows(SaleJoin(tables));
    }

    /** `select().from(products)`. */
    method SelectProducts(fault: bool) returns (r: Query<seq<Product>>)
      modifies this`queries
      ensures queries == old(queries) + 1
      ensures r == if fault then Fault else Rows(tables.products)
    {
      queries := queries + 1;
      r := if fault then Fault else Rows(tables.products);
    }
  }

  /** The sale listing the catalog holds: the mapped joined rows, stably sorted
      by descending priority. */
  function SaleListing(db: Tables): (r: seq<SaleProduct>)
    ensures |r| == |SaleJoin(db)|
  {
    StableSort(NormalizeAll(SaleJoin(db)))
  }

  /** GET `/`: one query, whatever the size of the catalog; on a fault, status
      500 and the fixed message, never part of a listing. */
  method GetSale(store: CatalogStore, fault: bool) returns (resp: Response<seq<SaleProduct>>)
    modifies store`queries
    ensures store.queries == old(store.queries) + 1
    ensures resp == if fault then ServerError(500, SaleFailure) else Json(SaleListing(store.tables))
  {
    var q := store.SelectSaleRows(fault);
    if q.Fault? {
      return ServerError(500, SaleFailure);
    }
    var rows := q.rows;
    var result := new SaleProduct[|rows|](i requires 0 <= i < |rows| => Normalize(rows[i]));
    assert result[..] == NormalizeAll(rows);
    SortByPriority(result);
    resp := Json(result[..]);
  }

  /** GET `/shop`: every product row, unfiltered and in table order. */
  method GetShop(store: CatalogStore, fault: bool) returns (resp: Response<seq<Product>>)
    modifies store`queries
    ensures store.queries == old(store.queries) + 1
    ensures resp == if fault then ServerError(500, ShopFailure) else Json(store.tables.products)
  {
    var q := store.SelectProducts(fault);
    if q.Fault? {
      return ServerError(500, ShopFailure);
    }
    resp := Json(q.rows);
  }

  /** The listing holds exactly the mapped rows of the query. */
  lemma ListingHasMappedRows(db: Tables, x: SaleProduct)
    ensures x in SaleListing(db) <==> exists r :: r in SaleJoin(db) && x == Normalize(r)
  {
    SortedHasMappedRows(SaleJoin(db), x);
  }

  /** Sorting the mapped rows of any query result neither adds nor drops a record. */
  lemma SortedHasMappedRows(rows: seq<JoinedRow>, x: SaleProduct)
    ensures x in StableSort(NormalizeAll(rows)) <==> exists r :: r in rows && x == Normalize(r)
  {
    var mapped := NormalizeAll(rows);
    StableSortCorrect(mapped);
    assert x in StableSort(mapped) <==> x in multiset(StableSort(mapped));
    assert x in StableSort(mapped) <==> x in mapped;
    if x in mapped {
      var i :| 0 <= i < |rows| && mapped[i] == x;
      assert rows[i] in rows;
    }
    if exists r :: r in rows && x == Normalize(r) {
      var r :| r in rows && x == Normalize(r);
      var i :| 0 <= i < |rows| && rows[i] == r;
      assert mapped[i] == x;
    }
  }

  /** Inner join: a product id is listed iff that product has a sale-price row. */
  lemma ListingMembership(db: Tables, id: int)
    ensures (exists x :: x in SaleListing(db) && x.id == id)
        <==> (exists p, s :: p in db.products && s in db.salePrices && p.id == id && s.productId == id)
  {
    if exists x :: x in SaleListing(db) && x.id == id {
      var x :| x in SaleListing(db) && x.id == id;
      ListedHasSale(db, x);
    }
    if exists p, s :: p in db.products && s in db.salePrices && p.id == id && s.productId == id {
      var p, s :| p in db.products && s in db.salePrices && p.id == id && s.productId == id;
      var x := SaleIsListed(db, p, s);
    }
  }

  /** A listed record's product exists and has a sale-price row. */
  lemma ListedHasSale(db: Tables, x: SaleProduct)
    requires x in SaleListing(db)
    ensures exists p, s :: p in db.products && s in db.salePrices && p.id == x.id && s.productId == x.id
  {
    ListingHasMappedRows(db, x);
    var r :| r in SaleJoin(db) && x == Normalize(r);
    JoinSound(db, r);
  }

  /** A product with a sale-price row has a listed record, returned as `x`. */
  lemma SaleIsListed(db: Tables, p: Product, s: SalePrice) returns (x: SaleProduct)
    requires p in db.products && s in db.salePrices && s.productId == p.id
    ensures x in SaleListing(db) && x.id == p.id
  {
    JoinComplete(db, p, s);
    var r :| r in SaleJoin(db) && FromProduct(r, p, s);
    x := Normalize(r);
    ListingHasMappedRows(db, x);
  }

  /** With no sale-price rows the listing is empty, not an error. */
  lemma ListingEmptyWithoutSales(db: Tables)
    requires db.salePrices == []
    ensures SaleListing(db) == []
  {
    if SaleListing(db) != [] {
      ListingMembership(db, SaleListing(db)[0].id);
      assert false;
    }
  }

  /** Every listed record is tagged "Sale" and carries its product's columns,
      with `originalPrice` equal to the product's `price`, and one of that
      product's sale prices. */
  lemma ListingRecord(db: Tables, x: SaleProduct)
    requires x in SaleListing(db)
    ensures x.category == Some(SaleTag) && x.originalPrice == x.price
    ensures exists p, s ::
              && p in db.products && s in db.salePrices && s.productId == p.id
              && x.id == p.id && x.name == p.name && x.description == p.description
              && x.image == p.image && x.originalPrice == p.price && x.salePrice == s.salePrice
  {
    ListingHasMappedRows(db, x);
    var r :| r in SaleJoin(db) && x == Normalize(r);
    JoinSound(db, r);
  }

  /** A listed product without a metadata row gets the defaults: no discount,
      no sale category, not featured, priority 0, no category description. */
  lemma ListingDefaults(db: Tables, x: SaleProduct)
    requires x in SaleListing(db)
    requires forall m :: m in db.metadata ==> m.productId != x.id
    ensures x.discount == None && x.saleCategory == None && !x.featured
    ensures x.priority == 0 && x.categoryDescription == None
  {
    FilterEmpty((m: Metadata) => m.productId == x.id, db.metadata);
    ListingHasMappedRows(db, x);
    var r :| r in SaleJoin(db) && x == Normalize(r);
    JoinSound(db, r);
  }

  /** A listed product that has metadata rows takes its discount, sale
      category, featured flag and priority, the sort key, from one of them,
      coalesced as the route does. */
  lemma ListingMetadata(db: Tables, x: SaleProduct)
    requires x in SaleListing(db)
    requires exists m :: m in db.metadata && m.productId == x.id
    ensures exists m ::
              && m in db.metadata && m.productId == x.id
              && x.discount == OrNull(m.discount) && x.saleCategory == OrNull(m.saleCategory)
              && (x.featured <==> m.featured == Some(true))
              && x.priority == (if m.priority.Some? then m.priority.value else 0)
  {
    ListingHasMappedRows(db, x);
    var r :| r in SaleJoin(db) && x == Normalize(r);
    var m := JoinedMetadata(db, r);
    assert x.discount == OrNull(m.discount) && x.saleCategory == OrNull(m.saleCategory);
  }

  /** A joined row of a product that has metadata carries one of its metadata rows. */
  lemma JoinedMetadata(db: Tables, r: JoinedRow) returns (m: Metadata)
    requires r in SaleJoin(db)
    requires exists m :: m in db.metadata && m.productId == r.id
    ensures m in db.metadata && m.productId == r.id && FromMetadata(r, m)
  {
    JoinSound(db, r);
    var m0 :| m0 in db.metadata && m0.productId == r.id;
    assert m0 in MetadataOf(r.id, db.metadata);
    m :| m in MetadataOf(r.id, db.metadata) && FromMetadata(r, m);
  }

  /** A listed category description is the description of a category that
      the record's sale category names. */
  lemma ListingCategory(db: Tables, x: SaleProduct)
    requires x in SaleListing(db) && x.categoryDescription.Some?
    ensures exists c ::
              && c in db.categories
              && x.saleCategory == OrNull(Some(c.name)) && x.categoryDescription == c.description
  {
    ListingHasMappedRows(db, x);
    var r :| r in SaleJoin(db) && x == Normalize(r);
    JoinSound(db, r);
  }

  /** A listed record whose sale category names a category of the table shows
      that category's description: the category join never drops a match. */
  lemma ListingNamedCategory(db: Tables, x: SaleProduct, c: SaleCategory)
    requires x in SaleListing(db) && c in db.categories && x.saleCategory == Some(c.name)
    ensures exists d ::
              && d in db.categories && d.name == c.name
              && x.categoryDescription == OrNull(d.description)
  {
    ListingHasMappedRows(db, x);
    var r :| r in SaleJoin(db) && x == Normalize(r);
    assert NamesCategory(r, db.categories);
    JoinSound(db, r);
  }

  /** Under the catalog's keys each product on sale is listed exactly once. */
  lemma ListedOnce(db: Tables, p: Product)
    requires Keyed(db) && p in db.products && OnSale(db, p.id)
    ensures |Filter((x: SaleProduct) => x.id == p.id, SaleListing(db))| == 1
  {
    JoinOncePerProduct(db, p);
    NormalizeIdCount(SaleJoin(db), p.id);
    StableSortCorrect(NormalizeAll(SaleJoin(db)));
    FilterCountPermutation((x: SaleProduct) => x.id == p.id, SaleListing(db), NormalizeAll(SaleJoin(db)));
  }

  /** Every metadata row of a product on sale shows up in the listing: some
      record of that product carries its coalesced columns. */
  lemma MetadataListed(db: Tables, p: Product, s: SalePrice, m: Metadata)
    requires p in db.products && s in db.salePrices && s.productId == p.id
    requires m in db.metadata && m.productId == p.id
    ensures exists x ::
              && x in SaleListing(db) && x.id == p.id && x.salePrice == s.salePrice
              && x.discount == OrNull(m.discount) && x.saleCategory == OrNull(m.saleCategory)
              && (x.featured <==> m.featured == Some(true))
              && x.priority == (if m.priority.Some? then m.priority.value else 0)
  {
    MetadataJoined(db, p, s, m);
    var r :| r in SaleJoin(db) && FromProduct(r, p, s) && FromMetadata(r, m);
    var x := Normalize(r);
    assert x.id == p.id && x.salePrice == s.salePrice;
    assert x.discount == OrNull(m.discount) && x.saleCategory == OrNull(m.saleCategory);
    assert x.featured <==> m.featured == Some(true);
    assert x.priority == (if m.priority.Some? then m.priority.value else 0);
    ListingHasMappedRows(db, x);
  }

  /** A product on sale whose metadata names a category of the table is listed
      with that category's description. */
  lemma CategoryListed(db: Tables, p: Product, s: SalePrice, m: Metadata, c: SaleCategory)
    requires p in db.products && s in db.salePrices && s.productId == p.id
    requires m in db.metadata && m.productId == p.id
    requires c in db.categories && m.saleCategory == Some(c.name)
    ensures exists x ::
              && x in SaleListing(db) && x.id == p.id
              && x.saleCategory == OrNull(Some(c.name))
              && x.categoryDescription == OrNull(c.description)
  {
    CategoryJoined(db, p, s, m, c);
    var r :| r in SaleJoin(db) && FromProduct(r, p, s) && FromMetadata(r, m) && FromCategory(r, c);
    ListingHasMappedRows(db, Normalize(r));
    var x := Normalize(r);
    assert x in SaleListing(db);
  }

  /** The listing is sorted by descending priority, is a permutation of the
      mapped rows, and keeps query order among equal priorities. */
  lemma ListingOrder(db: Tables)
    ensures SortedByPriority(SaleListing(db))
    ensures multiset(SaleListing(db)) == multiset(NormalizeAll(SaleJoin(db)))
    ensures KeepsTies(NormalizeAll(SaleJoin(db)), SaleListing(db))
  {
    StableSortCorrect(NormalizeAll(SaleJoin(db)));
  }
}
