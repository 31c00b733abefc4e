/** The schema.org `CollectionPage` description of a category page and its first products. */
module CollectionPageSchema {
  import opened Wrappers
  import opened Text

  /** A product as the schema reads it; prices in cents. */
  datatype Product = Product(
    name: string,
    slug: string,
    description: string,
    price: int,
    salePrice: Option<int>,
    quantity: Option<int>)

  datatype Availability = InStock | OutOfStock

  /** One `ListItem` of the item list. */
  datatype ListItem = ListItem(position: int, id: string, name: string, url: string, price: int, availability: Availability, offerUrl: string)

  datatype Page = Page(id: string, name: string, description: string, url: string, numberOfItems: int, items: seq<ListItem>)

  /** At most this many products are listed. */
  const MaxListed := 12

  /** `product.salePrice || product.price`: a sale price of 0 counts as none. */
  function OfferPrice(p: Product): (r: int)
    ensures p.salePrice.Some? && p.salePrice.value != 0 ==> r == p.salePrice.value
    ensures p.salePrice.None? || p.salePrice.value == 0 ==> r == p.price
  {
    if p.salePrice.Some? && p.salePrice.value != 0 then p.salePrice.value else p.price
  }

  function AvailabilityOf(p: Product): (r: Availability)
    ensures r == InStock <==> p.quantity.Some? && p.quantity.value > 0
  {
    if p.quantity.Some? && p.quantity.value > 0 then InStock else OutOfStock
  }

  function ProductUrl(domain: string, p: Product): string {
    domain + "/product/" + p.slug
  }

  function Item(domain: string, p: Product, index: int): ListItem {
    ListItem(index + 1, ProductUrl(domain, p), p.name, ProductUrl(domain, p), OfferPrice(p), AvailabilityOf(p), ProductUrl(domain, p))
  }

  /** `products.slice(0, 12).map(...)` */
  function Items(domain: string, products: seq<Product>): (r: seq<ListItem>)
    ensures |r| == if |products| < MaxListed then |products| else MaxListed
    ensures forall i :: 0 <= i < |r| ==> r[i] == Item(domain, products[i], i)
  {
    var shown := if |products| < MaxListed then products else products[..MaxListed];
    seq(|shown|, i requires 0 <= i < |shown| => Item(domain, shown[i], i))
  }

  /** `BuildCollectionPage`'s fields. */
  function BuildPage(name: string, description: Option<string>, products: seq<Product>, categorySlug: string,
                     totalCount: Option<int>, domain: string): Page
  {
    var url := domain + "/products/" + categorySlug;
    Page(url, name, OrElse(description, "Browse products in " + name + " category"), url,
      if totalCount.Some? && totalCount.value != 0 then totalCount.value else |products|,
      Items(domain, products))
  }

  /** The first at most twelve products are listed in order at positions 1, 2, ...; each item's
      id, link and offer link is its product page, its price the sale price when set and non-zero,
      and it is in stock exactly when a positive quantity is known. */
  lemma PageRule(name: string, description: Option<string>, products: seq<Product>, categorySlug: string,
                 totalCount: Option<int>, domain: string)
    ensures var page := BuildPage(name, description, products, categorySlug, totalCount, domain);
      |page.items| <= MaxListed && |page.items| <= |products|
      && (|products| <= MaxListed ==> |page.items| == |products|)
      && forall i :: 0 <= i < |page.items| ==>
        page.items[i].position == i + 1 && page.items[i].name == products[i].name
        && page.items[i].id == domain + "/product/" + products[i].slug
        && page.items[i].url == page.items[i].id && page.items[i].offerUrl == page.items[i].id
        && page.items[i].price == OfferPrice(products[i])
        && (page.items[i].availability == InStock <==> products[i].quantity.Some? && products[i].quantity.value > 0)
  {
  }

  /** The page's id and url are its category path; the description falls back to a sentence
      naming the category; the item count is the total count when given and non-zero. */
  lemma PageHeaderRule(name: string, description: Option<string>, products: seq<Product>, categorySlug: string,
                       totalCount: Option<int>, domain: string)
    ensures var page := BuildPage(name, description, products, categorySlug, totalCount, domain);
      page.id == domain + "/products/" + categorySlug && page.url == page.id && page.name == name
      && (Truthy(description) ==> page.description == description.value)
      && (!Truthy(description) ==> page.description == "Browse products in " + name + " category")
      && (totalCount.Some? && totalCount.value != 0 ==> page.numberOfItems == totalCount.value)
      && (totalCount.None? || totalCount.value == 0 ==> page.numberOfItems == |products|)
  {
  }
}
