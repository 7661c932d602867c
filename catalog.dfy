/** The catalog store's tables, the joined query behind the sale listing and
    the transform of each joined row into a sale product
    (apps/api/src/routes/sale.ts, record shapes from apps/api/src/types.d.ts). */
module Catalog {
  import opened Wrappers
  import opened SeqUtil

  /** A decimal amount. The store hands prices over as decimal strings; the
      model keeps their numeric value. */
  type Money = real

  datatype Product = Product(id: int, name: string, description: string, image: Option<string>, price: Money)

  /** A row of `salePrices`: its presence puts the product on sale. */
  datatype SalePrice = SalePrice(productId: int, salePrice: Money)

  /** A row of `productMetadata`; every column but the key may be NULL. */
  datatype Metadata = Metadata(
    productId: int,
    discount: Option<string>,
    saleCategory: Option<string>,
    featured: Option<bool>,
    priority: Option<int>)

  /** A row of `saleCategories`, keyed by name. */
  datatype SaleCategory = SaleCategory(name: string, description: Option<string>)

  datatype Tables = Tables(
    products: seq<Product>,
    salePrices: seq<SalePrice>,
    metadata: seq<Metadata>,
    categories: seq<SaleCategory>)

  /** One row of the joined query: the selected columns, with NULL where a
      left join found no partner. */
  datatype JoinedRow = JoinedRow(
    id: int,
    name: string,
    description: string,
    image: Option<string>,
    price: Money,
    salePrice: Money,
    discount: Option<string>,
    saleCategory: Option<string>,
    featured: Option<bool>,
    priority: Option<int>,
    categoryDescription: Option<string>)

  /** The record the sale listing returns. */
  datatype SaleProduct = SaleProduct(
    id: int,
    name: string,
    description: string,
    price: Money,
    originalPrice: Money,
    salePrice: Money,
    discount: Option<string>,
    image: Option<string>,
    category: Option<string>,
    saleCategory: Option<string>,
    featured: bool,
    priority: int,
    categoryDescription: Option<string>)

  /** The tag every sale-listing record carries. */
  const SaleTag := "Sale"

  /** The partners a left join pairs a row with: every match, or a single
      NULL when there is none. */
  function LeftJoin<T(!new)>(matches: seq<T>): (r: seq<Option<T>>)
    ensures |r| >= 1
    ensures matches == [] ==> r == [None]
    ensures forall o :: o in r <==> (if matches == [] then o == None else o.Some? && o.value in matches)
  {
    if matches == [] then [None] else Present(matches)
  }

  /** Every element wrapped as present. */
  function Present<T(!new)>(xs: seq<T>): (r: seq<Option<T>>)
    ensures |r| == |xs|
    ensures forall o :: o in r <==> o.Some? && o.value in xs
  {
    if xs == [] then [] else [Some(xs[0])] + Present(xs[1..])
  }

  /** Metadata rows joined on `products.id = productMetadata.productId`. */
  function MetadataOf(id: int, metadata: seq<Metadata>): seq<Metadata> {
    Filter((m: Metadata) => m.productId == id, metadata)
  }

  /** Category rows joined on `productMetadata.saleCategory = saleCategories.name`;
      a NULL on the left side (no metadata row, or no category in it) matches nothing. */
  function CategoriesOf(m: Option<Metadata>, categories: seq<SaleCategory>): seq<SaleCategory> {
    if m.Some? && m.value.saleCategory.Some? then
      Filter((c: SaleCategory) => c.name == m.value.saleCategory.value, categories)
    else []
  }

  /** The selected columns of one combination of joined rows. */
  function Row(p: Product, s: SalePrice, m: Option<Metadata>, c: Option<SaleCategory>): JoinedRow {
    JoinedRow(
      p.id, p.name, p.description, p.image, p.price,
      s.salePrice,
      if m.Some? then m.value.discount else None,
      if m.Some? then m.value.saleCategory else None,
      if m.Some? then m.value.featured else None,
      if m.Some? then m.value.priority else None,
      if c.Some? then c.value.description else None)
  }

  /** The query: products, inner join salePrices, left join productMetadata,
      left join saleCategories, produced as a nested loop in table order. */
  function SaleJoin(db: Tables): (r: seq<JoinedRow>)
    ensures db.products == [] ==> r == []
  {
    FlatMap(db.products, (p: Product) => ProductRows(db, p))
  }

  /** The joined rows of one product: one group per sale-price row (inner join). */
  function ProductRows(db: Tables, p: Product): seq<JoinedRow> {
    FlatMap(Filter((s: SalePrice) => s.productId == p.id, db.salePrices), (s: SalePrice) => SaleRows(db, p, s))
  }

  /** The joined rows of one product and sale price: one group per metadata
      row, or one with NULL metadata (left join). */
  function SaleRows(db: Tables, p: Product, s: SalePrice): seq<JoinedRow> {
    FlatMap(LeftJoin(MetadataOf(p.id, db.metadata)), (m: Option<Metadata>) => MetadataRows(db, p, s, m))
  }

  /** One row per matching category, or one with a NULL description (left join). */
  function MetadataRows(db: Tables, p: Product, s: SalePrice, m: Option<Metadata>): seq<JoinedRow> {
    FlatMap(LeftJoin(CategoriesOf(m, db.categories)), (c: Option<SaleCategory>) => [Row(p, s, m, c)])
  }

  /** JavaScript's `v || null` on a nullable string: NULL and "" both become null. */
  function OrNull(v: Option<string>): (r: Option<string>)
    ensures r == None <==> v == None || v == Some("")
    ensures r.Some? ==> r == v
  {
    match v
    case Some(t) => if t == "" then None else v
    case None => None
  }

  /** The row transform of the sale listing. */
  function Normalize(row: JoinedRow): (r: SaleProduct)
    ensures r.id == row.id && r.name == row.name && r.description == row.description
    ensures r.image == row.image && r.salePrice == row.salePrice
    ensures r.category == Some(SaleTag)
    ensures r.price == row.price && r.originalPrice == row.price
    ensures r.discount == OrNull(row.discount) && r.saleCategory == OrNull(row.saleCategory)
    ensures r.categoryDescription == OrNull(row.categoryDescription)
    ensures r.featured <==> row.featured == Some(true)
    ensures r.priority == (if row.priority.Some? then row.priority.value else 0)
  {
    SaleProduct(
      id := row.id,
      name := row.name,
      description := row.description,
      price := row.price,
      originalPrice := row.price,
      salePrice := row.salePrice,
      discount := OrNull(row.discount),
      image := row.image,
      category := Some(SaleTag),
      saleCategory := OrNull(row.saleCategory),
      featured := row.featured.Some? && row.featured.value,
      priority := if row.priority.Some? then row.priority.value else 0,
      categoryDescription := OrNull(row.categoryDescription))
  }

  /** The mapped rows, in query order. */
  function NormalizeAll(rows: seq<JoinedRow>): (r: seq<SaleProduct>)
    ensures |r| == |rows|
    ensures forall i :: 0 <= i < |rows| ==> r[i] == Normalize(rows[i])
  {
    seq(|rows|, i requires 0 <= i < |rows| => Normalize(rows[i]))
  }

  /** The product columns of `r` come from `p`, its sale price from `s`. */
  ghost predicate FromProduct(r: JoinedRow, p: Product, s: SalePrice) {
    && s.productId == p.id
    && r.id == p.id && r.name == p.name && r.description == p.description
    && r.image == p.image && r.price == p.price
    && r.salePrice == s.salePrice
  }

  /** The metadata-derived columns are all NULL. */
  ghost predicate NoMetadataColumns(r: JoinedRow) {
    r.discount == None && r.saleCategory == None && r.featured == None
    && r.priority == None && r.categoryDescription == None
  }

  /** The metadata columns of `r` come from the metadata row `m`. */
  ghost predicate FromMetadata(r: JoinedRow, m: Metadata) {
    r.discount == m.discount && r.saleCategory == m.saleCategory
    && r.featured == m.featured && r.priority == m.priority
  }

  /** The category description of `r` comes from the category `c` its sale
      category names. */
  ghost predicate FromCategory(r: JoinedRow, c: SaleCategory) {
    r.saleCategory == Some(c.name) && r.categoryDescription == c.description
  }

  /** The sale category of `r` is the name of a category of the table. */
  ghost predicate NamesCategory(r: JoinedRow, categories: seq<SaleCategory>) {
    exists c :: c in categories && r.saleCategory == Some(c.name)
  }

  /** Every joined row pairs a product with one of its sale prices. Its
      metadata columns come from one of the product's metadata rows when it
      has any and are all NULL when it has none. A category description comes
      from the category its sale category names, and a row whose sale category
      names a category of the table carries such a category's description. */
  lemma JoinSound(db: Tables, r: JoinedRow)
    requires r in SaleJoin(db)
    ensures exists p, s :: p in db.products && s in db.salePrices && FromProduct(r, p, s)
    ensures MetadataOf(r.id, db.metadata) == [] ==> NoMetadataColumns(r)
    ensures MetadataOf(r.id, db.metadata) != [] ==>
      exists m :: m in MetadataOf(r.id, db.metadata) && FromMetadata(r, m)
    ensures r.categoryDescription.Some? ==> exists c :: c in db.categories && FromCategory(r, c)
    ensures NamesCategory(r, db.categories) ==> exists c :: c in db.categories && FromCategory(r, c)
  {
    var p :| p in db.products && r in ProductRows(db, p);
    var s :| s in Filter((s: SalePrice) => s.productId == p.id, db.salePrices) && r in SaleRows(db, p, s);
    SaleRowsSound(db, p, s, r);
  }

  /** `JoinSound` for the rows of one product and one of its sale prices. */
  lemma SaleRowsSound(db: Tables, p: Product, s: SalePrice, r: JoinedRow)
    requires s.productId == p.id && r in SaleRows(db, p, s)
    ensures FromProduct(r, p, s)
    ensures MetadataOf(p.id, db.metadata) == [] ==> NoMetadataColumns(r)
    ensures MetadataOf(p.id, db.metadata) != [] ==>
      exists m :: m in MetadataOf(p.id, db.metadata) && FromMetadata(r, m)
    ensures r.categoryDescription.Some? ==> exists c :: c in db.categories && FromCategory(r, c)
    ensures NamesCategory(r, db.categories) ==> exists c :: c in db.categories && FromCategory(r, c)
  {
    var m :| m in LeftJoin(MetadataOf(p.id, db.metadata)) && r in MetadataRows(db, p, s, m);
    MetadataRowsSound(db, p, s, m, r);
  }

  /** `JoinSound` for the rows of one product, sale price and metadata partner. */
  lemma MetadataRowsSound(db: Tables, p: Product, s: SalePrice, m: Option<Metadata>, r: JoinedRow)
    requires s.productId == p.id && r in MetadataRows(db, p, s, m)
    ensures FromProduct(r, p, s)
    ensures m == None ==> NoMetadataColumns(r)
    ensures m.Some? ==> FromMetadata(r, m.value)
    ensures r.categoryDescription.Some? ==> exists c :: c in db.categories && FromCategory(r, c)
    ensures NamesCategory(r, db.categories) ==> exists c :: c in db.categories && FromCategory(r, c)
  {
    var c :| c in LeftJoin(CategoriesOf(m, db.categories)) && r in [Row(p, s, m, c)];
    assert m == None ==> c == None;
    if c.Some? {
      assert c.value in CategoriesOf(m, db.categories);
      assert FromCategory(r, c.value);
    }
  }

  /** Every pairing of a product with one of its sale prices yields at least
      one joined row, whatever the metadata and category tables hold. */
  lemma JoinComplete(db: Tables, p: Product, s: SalePrice)
    requires p in db.products && s in db.salePrices && s.productId == p.id
    ensures exists r :: r in SaleJoin(db) && FromProduct(r, p, s)
  {
    var m := LeftJoin(MetadataOf(p.id, db.metadata))[0];
    var c := LeftJoin(CategoriesOf(m, db.categories))[0];
    var r := Row(p, s, m, c);
    assert r in MetadataRows(db, p, s, m);
    assert r in SaleRows(db, p, s);
    assert s in Filter((s: SalePrice) => s.productId == p.id, db.salePrices);
    assert r in ProductRows(db, p);
    assert FromProduct(r, p, s);
  }

  /** A row built from a product, one of its sale prices and partners the two
      left joins offer is a row of the query. */
  lemma RowJoined(db: Tables, p: Product, s: SalePrice, m: Option<Metadata>, c: Option<SaleCategory>)
    requires p in db.products && s in db.salePrices && s.productId == p.id
    requires m in LeftJoin(MetadataOf(p.id, db.metadata))
    requires c in LeftJoin(CategoriesOf(m, db.categories))
    ensures Row(p, s, m, c) in SaleJoin(db)
  {
    var r := Row(p, s, m, c);
    assert r in MetadataRows(db, p, s, m);
    assert r in SaleRows(db, p, s);
    assert s in Filter((s: SalePrice) => s.productId == p.id, db.salePrices);
    assert r in ProductRows(db, p);
  }

  /** Left join on metadata, completeness: each metadata row of a product
      with a sale price yields a joined row carrying that metadata. When no
      category bears the name it gives, that row's category description is NULL. */
  lemma MetadataJoined(db: Tables, p: Product, s: SalePrice, m: Metadata)
    requires p in db.products && s in db.salePrices && s.productId == p.id
    requires m in db.metadata && m.productId == p.id
    ensures exists r ::
              && r in SaleJoin(db) && FromProduct(r, p, s) && FromMetadata(r, m)
              && ((forall c :: c in db.categories ==> m.saleCategory != Some(c.name)) ==>
                    r.categoryDescription == None)
  {
    assert m in MetadataOf(p.id, db.metadata);
    var c := LeftJoin(CategoriesOf(Some(m), db.categories))[0];
    RowJoined(db, p, s, Some(m), c);
    var r := Row(p, s, Some(m), c);
    if c.Some? {
      assert c.value in CategoriesOf(Some(m), db.categories);
    }
    assert FromProduct(r, p, s) && FromMetadata(r, m);
  }

  /** Left join on categories, completeness: a metadata row naming a category
      of the table yields a joined row carrying that category's description. */
  lemma CategoryJoined(db: Tables, p: Product, s: SalePrice, m: Metadata, c: SaleCategory)
    requires p in db.products && s in db.salePrices && s.productId == p.id
    requires m in db.metadata && m.productId == p.id
    requires c in db.categories && m.saleCategory == Some(c.name)
    ensures exists r ::
              && r in SaleJoin(db) && FromProduct(r, p, s) && FromMetadata(r, m)
              && FromCategory(r, c)
  {
    assert m in MetadataOf(p.id, db.metadata);
    assert c in CategoriesOf(Some(m), db.categories);
    RowJoined(db, p, s, Some(m), Some(c));
    var r := Row(p, s, Some(m), Some(c));
    assert FromProduct(r, p, s) && FromMetadata(r, m) && FromCategory(r, c);
  }

  /** No two products share an id. */
  ghost predicate UniqueIds(ps: seq<Product>) {
    forall i, j :: 0 <= i < j < |ps| ==> ps[i].id != ps[j].id
  }

  /** The keys the catalog's tables are designed with: product ids and
      category names are unique, and a product has at most one sale-price row
      and at most one metadata row. */
  ghost predicate Keyed(db: Tables) {
    && UniqueIds(db.products)
    && (forall i, j :: 0 <= i < j < |db.salePrices| ==> db.salePrices[i].productId != db.salePrices[j].productId)
    && (forall i, j :: 0 <= i < j < |db.metadata| ==> db.metadata[i].productId != db.metadata[j].productId)
    && (forall i, j :: 0 <= i < j < |db.categories| ==> db.categories[i].name != db.categories[j].name)
  }

  /** Some sale-price row names the product id `id`. */
  ghost predicate OnSale(db: Tables, id: int) {
    exists s :: s in db.salePrices && s.productId == id
  }

  /** With unique category names, one metadata partner yields exactly one row. */
  lemma MetadataRowsOne(db: Tables, p: Product, s: SalePrice, m: Option<Metadata>)
    requires forall i, j :: 0 <= i < j < |db.categories| ==> db.categories[i].name != db.categories[j].name
    ensures |MetadataRows(db, p, s, m)| == 1
  {
    if m.Some? && m.value.saleCategory.Some? {
      FilterAtMostOne((c: SaleCategory) => c.name == m.value.saleCategory.value, db.categories);
    }
    FlatMapSingletons(LeftJoin(CategoriesOf(m, db.categories)), (c: Option<SaleCategory>) => [Row(p, s, m, c)]);
  }

  /** Under the keys, a product and one of its sale prices yield exactly one row. */
  lemma SaleRowsOne(db: Tables, p: Product, s: SalePrice)
    requires Keyed(db)
    ensures |SaleRows(db, p, s)| == 1
  {
    FilterAtMostOne((m: Metadata) => m.productId == p.id, db.metadata);
    var partners := LeftJoin(MetadataOf(p.id, db.metadata));
    forall m | m in partners ensures |MetadataRows(db, p, s, m)| == 1 {
      MetadataRowsOne(db, p, s, m);
    }
    FlatMapSingletons(partners, (m: Option<Metadata>) => MetadataRows(db, p, s, m));
  }

  /** Under the keys, a product on sale yields exactly one row and any other product none. */
  lemma ProductRowsCount(db: Tables, p: Product)
    requires Keyed(db)
    ensures |ProductRows(db, p)| == if OnSale(db, p.id) then 1 else 0
  {
    var sales := Filter((s: SalePrice) => s.productId == p.id, db.salePrices);
    FilterAtMostOne((s: SalePrice) => s.productId == p.id, db.salePrices);
    FilterEmpty((s: SalePrice) => s.productId == p.id, db.salePrices);
    if OnSale(db, p.id) {
      var s :| s in db.salePrices && s.productId == p.id;
      assert s in sales;
    }
    forall s | s in sales ensures |SaleRows(db, p, s)| == 1 {
      SaleRowsOne(db, p, s);
    }
    FlatMapSingletons(sales, (s: SalePrice) => SaleRows(db, p, s));
  }

  /** Every row of a product carries its id. */
  lemma ProductRowsIds(db: Tables, p: Product)
    ensures forall r :: r in ProductRows(db, p) ==> r.id == p.id
  {
    forall r | r in ProductRows(db, p) ensures r.id == p.id {
      var s :| s in Filter((s: SalePrice) => s.productId == p.id, db.salePrices) && r in SaleRows(db, p, s);
      SaleRowsSound(db, p, s, r);
    }
  }

  /** Under the keys, the rows of a product list carrying the id `id` number one
      when a product of the list has that id and is on sale, and none otherwise. */
  lemma {:induction false} RowsOfId(db: Tables, ps: seq<Product>, id: int)
    requires Keyed(db) && UniqueIds(ps)
    ensures |Filter((r: JoinedRow) => r.id == id, FlatMap(ps, (p: Product) => ProductRows(db, p)))|
            == if OnSale(db, id) && exists p :: p in ps && p.id == id then 1 else 0
  {
    if ps != [] {
      var q := ps[0];
      assert ps == [q] + ps[1..];
      RowsOfId(db, ps[1..], id);
      FilterAppend((r: JoinedRow) => r.id == id, ProductRows(db, q),
                   FlatMap(ps[1..], (p: Product) => ProductRows(db, p)));
      ProductRowsOfId(db, q, id);
      if q.id == id {
        forall p | p in ps[1..] ensures p.id != id {
          var k :| 0 <= k < |ps[1..]| && ps[1..][k] == p;
          assert ps[k + 1] == p;
        }
      }
    }
  }

  /** Under the keys, the rows of one product carrying the id `id` number one
      when the product has that id and is on sale, and none otherwise. */
  lemma ProductRowsOfId(db: Tables, q: Product, id: int)
    requires Keyed(db)
    ensures |Filter((r: JoinedRow) => r.id == id, ProductRows(db, q))|
            == if q.id == id && OnSale(db, id) then 1 else 0
  {
    ProductRowsIds(db, q);
    ProductRowsCount(db, q);
    if q.id == id {
      FilterAll((r: JoinedRow) => r.id == id, ProductRows(db, q));
    } else {
      FilterEmpty((r: JoinedRow) => r.id == id, ProductRows(db, q));
    }
  }

  /** Under the keys, the query returns exactly one row for each product on sale. */
  lemma JoinOncePerProduct(db: Tables, p: Product)
    requires Keyed(db) && p in db.products && OnSale(db, p.id)
    ensures |Filter((r: JoinedRow) => r.id == p.id, SaleJoin(db))| == 1
  {
    RowsOfId(db, db.products, p.id);
  }

  /** Mapping rows to records keeps how many carry a given id. */
  lemma {:induction false} NormalizeIdCount(rows: seq<JoinedRow>, id: int)
    ensures |Filter((x: SaleProduct) => x.id == id, NormalizeAll(rows))|
            == |Filter((r: JoinedRow) => r.id == id, rows)|
  {
    if rows != [] {
      NormalizeIdCount(rows[1..], id);
      assert NormalizeAll(rows) == [Normalize(rows[0])] + NormalizeAll(rows[1..]);
    }
  }
}
