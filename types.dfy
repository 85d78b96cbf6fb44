/** Shared data model of the catalog app: products, pages of products, the
    sort options and the parameters a deep link carries. */
module Types {

  datatype Option<+T> = None | Some(value: T)

  /** A catalog product. JavaScript numbers become `int` where the app treats
      them as counts or identifiers and `real` where they are prices, ratings
      or percentages; the app only compares and subtracts them. */
  datatype Product = Product(
    id: int,
    title: string,
    description: string,
    price: real,
    discountPercentage: real,
    rating: real,
    stock: int,
    brand: string,
    category: string,
    thumbnail: string,
    images: seq<string>)

  /** One page of a product listing as returned by the list endpoints. */
  datatype ProductsResponse = ProductsResponse(
    products: seq<Product>,
    total: int,
    skip: int,
    limit: int)

  /** The four sort options; `Unrecognized` stands for any other value that
      reaches the `default` branch of the sort and label switches. */
  datatype SortOption =
    | PriceAsc
    | PriceDesc
    | RatingAsc
    | RatingDesc
    | Unrecognized(tag: string)

  /** The optional parameters of a deep link. */
  datatype DeepLinkParams = DeepLinkParams(category: Option<string>, productId: Option<int>)

  /** JavaScript truthiness of an optional string: present and not empty. */
  predicate TruthyString(s: Option<string>) {
    s.Some? && s.value != ""
  }

  /** JavaScript truthiness of an optional integer: present and not 0. */
  predicate TruthyInt(n: Option<int>) {
    n.Some? && n.value != 0
  }

  /** `x || undefined` / `x || null` on an optional string: the value if it
      is truthy, otherwise absent. */
  function OrAbsent(s: Option<string>): (r: Option<string>)
    ensures r.Some? <==> TruthyString(s)
    ensures r.Some? ==> r == s
  {
    if TruthyString(s) then s else None
  }
}
