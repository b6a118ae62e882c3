/**
 * The product record the catalog service returns, as the components read it.
 * A field the record lacks (`undefined`) is modelled as the empty string. The
 * optional reads (`category?.trim()`, `product_name?.toLowerCase()`, `||`
 * defaults) treat a missing field and `""` alike: both are falsy, and neither
 * contains a non-empty query. The unguarded reads of `product_name` in the card
 * renderer and in the card file names throw on a missing name; the model gives
 * them the empty name instead. `product_id` is always present and is held as its
 * string form.
 */
module Products {
  import opened Strings

  datatype Product = Product(
    product_id: string,
    product_name: string,
    category: string,
    description: string,
    image_url: string,
    price: string)

  /** A search box's query as both product lists compare it: lower-cased, then trimmed. */
  function NormalizedQuery(query: string): (q: string)
    ensures q == [] <==> AllSpace(ToLower(query))
  {
    BlankIffAllSpace(ToLower(query));
    Trim(ToLower(query))
  }

  /** The shared match: the query occurs in the lower-cased name, id or category. */
  predicate Matches(p: Product, q: string)
  {
    Includes(ToLower(p.product_name), q) || Includes(ToLower(p.product_id), q) || Includes(ToLower(p.category), q)
  }

  /** The match as a filter predicate. */
  function MatchesQuery(q: string): Product -> bool
  {
    (p: Product) => Matches(p, q)
  }
}
