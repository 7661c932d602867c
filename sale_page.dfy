/** The sale page (apps/web/src/pages/Sale.tsx): the fetch of the listing, the
    state it leaves, and what the page renders from that state. */
module SalePage {
  import opened Wrappers
  import opened Catalog
  import SaleRoute

  const LoadFailure := "Failed to load sale products. Please try again."
  const PlaceholderImage := "https://via.placeholder.com/300x200?text=Product"

  /** What the listing request yields: the records, or any failure. */
  datatype FetchOutcome = Fetched(data: seq<SaleProduct>) | FetchFailed

  /** The parts of a product card taken from the record: the id its link
      goes to, the name, the featured banner, the image, the category badge
      (absent when the category is empty), the description and the prices.
      The percentage badge is not part of this model. */
  datatype Card = Card(
    id: int, name: string, featured: bool, image: string, categoryBadge: Option<string>,
    description: string, originalPrice: Money, salePrice: Money, savings: Money)

  /** What the page renders: nothing while loading, the error view with its
      retry button, the empty-listing notice, or the grid of cards. */
  datatype SaleView = Blank | ErrorView(message: string) | NoSaleItems | Grid(cards: seq<Card>)

  /** `calculateSavings`' amount: what the sale price takes off the original. */
  function Savings(originalPrice: Money, salePrice: Money): (r: Money)
    ensures salePrice + r == originalPrice
    ensures r > 0.0 <==> salePrice < originalPrice
  {
    originalPrice - salePrice
  }

  /** The card a record renders: its fields, its savings, and its image or
      the placeholder when it has none. */
  function CardOf(p: SaleProduct): (c: Card)
    ensures c.id == p.id && c.name == p.name && c.featured == p.featured && c.description == p.description
    ensures c.categoryBadge.Some? <==> p.saleCategory.Some? && p.saleCategory.value != ""
    ensures c.categoryBadge.Some? ==> c.categoryBadge == p.saleCategory
    ensures c.originalPrice == p.originalPrice && c.salePrice == p.salePrice
    ensures c.salePrice + c.savings == c.originalPrice
    ensures p.image.Some? && p.image.value != "" ==> c.image == p.image.value
    ensures !(p.image.Some? && p.image.value != "") ==> c.image == PlaceholderImage
  {
    Card(p.id, p.name, p.featured,
         if p.image.Some? && p.image.value != "" then p.image.value else PlaceholderImage,
         OrNull(p.saleCategory), p.description, p.originalPrice, p.salePrice,
         Savings(p.originalPrice, p.salePrice))
  }

  /** One card per record, in listing order. */
  function Cards(products: seq<SaleProduct>): (r: seq<Card>)
    ensures |r| == |products|
    ensures forall i :: 0 <= i < |products| ==> r[i] == CardOf(products[i])
  {
    seq(|products|, i requires 0 <= i < |products| => CardOf(products[i]))
  }

  /** For the listing the catalog routes serve, every card's savings are the
      product's catalog price less its sale price. */
  lemma ListingCardSavings(db: Tables, i: nat)
    requires i < |SaleRoute.SaleListing(db)|
    ensures exists p, s ::
              && p in db.products && s in db.salePrices && s.productId == p.id
              && Cards(SaleRoute.SaleListing(db))[i].id == p.id
              && Cards(SaleRoute.SaleListing(db))[i].savings == p.price - s.salePrice
  {
    var x := SaleRoute.SaleListing(db)[i];
    SaleRoute.ListingRecord(db, x);
  }

  /** The `Sale` component's state. */
  class Sale {
    var products: seq<SaleProduct>
    var loading: bool
    var error: Option<string>

    constructor ()
      ensures products == [] && loading && error == None
    {
      products := [];
      loading := true;
      error := None;
    }

    /** The render decision, checked in this order: loading, error, empty. */
    function View(): (v: SaleView)
      reads this
      ensures loading <==> v == Blank
      ensures v.ErrorView? <==> !loading && error.Some? && error.value != ""
      ensures v.ErrorView? ==> v.message == error.value
      ensures v == NoSaleItems <==> !loading && !(error.Some? && error.value != "") && products == []
      ensures v.Grid? ==> v.cards == Cards(products) && v.cards != []
    {
      if loading then Blank
      else if error.Some? && error.value != "" then ErrorView(error.value)
      else if products == [] then NoSaleItems
      else Grid(Cards(products))
    }

    /** `fetchSaleProducts`, the request answering `outcome`: a success
        replaces the records and clears the error, a failure sets the error and
        keeps the records; loading is off afterwards either way. */
    method FetchSaleProducts(outcome: FetchOutcome)
      modifies this
      ensures !loading
      ensures outcome.Fetched? ==> products == outcome.data && error == None
      ensures outcome.FetchFailed? ==> products == old(products) && error == Some(LoadFailure)
      ensures outcome.FetchFailed? ==> View() == ErrorView(LoadFailure)
      ensures outcome.Fetched? ==> View() == (if outcome.data == [] then NoSaleItems else Grid(Cards(outcome.data)))
    {
      loading := true;
      match outcome {
        case Fetched(data) =>
          products := data;
          error := None;
        case FetchFailed =>
          error := Some(LoadFailure);
      }
      loading := false;
    }

    /** The error view's "Try Again" button runs the fetch again. */
    method Retry(outcome: FetchOutcome)
      requires View().ErrorView?
      modifies this
      ensures !loading
      ensures outcome.Fetched? ==> products == outcome.data && error == None
      ensures outcome.FetchFailed? ==> products == old(products) && View() == ErrorView(LoadFailure)
    {
      FetchSaleProducts(outcome);
    }
  }
}
