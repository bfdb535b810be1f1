/** The product document of models/products.js and its validation. */
module ProductModel {
  import opened Common

  const MaxStock := 1000
  const MaxRating := 5

  /** `size` is a Mixed path: any value, numeric or textual, or none. */
  datatype Size = NoSize | NumericSize(n: int) | TextSize(text: string)

  /** A product document. Numbers are integers (prices in the smallest
      currency unit); a required number that the request leaves out is
      None. image and brand default to "", images to no strings, rating
      to 0. */
  datatype Product = Product(
    name: string,
    description: string,
    price: Option<int>,
    colour: string,
    size: Size,
    category: Option<Id>,
    countInStock: Option<int>,
    dateCreated: int,
    image: string := "",
    images: seq<string> := [],
    brand: string := "",
    rating: int := 0)

  /** The schema's validators: required fields, price at least 0, stock in
      0..1000, rating in 0..5. A Mixed value is present when it is not
      absent, so an empty text size passes. */
  predicate ValidProduct(p: Product) {
    && p.name != ""
    && p.description != ""
    && p.price.Some? && p.price.value >= 0
    && p.colour != ""
    && !p.size.NoSize?
    && p.category.Some?
    && p.countInStock.Some? && 0 <= p.countInStock.value <= MaxStock
    && 0 <= p.rating <= MaxRating
  }

  /** A product built without image, images, brand and rating takes the
      defaults "", none, "" and 0, and leaving those fields out never
      changes the schema's verdict on a product whose rating is in range. */
  lemma ProductDefaults(p: Product)
    requires 0 <= p.rating <= MaxRating
    ensures var q := Product(p.name, p.description, p.price, p.colour, p.size, p.category,
                             p.countInStock, p.dateCreated);
      && q.image == "" && q.images == [] && q.brand == "" && q.rating == 0
      && (ValidProduct(q) <==> ValidProduct(p))
  {
  }
}
