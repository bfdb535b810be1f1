/** The product handlers of routers/products.js: the upload rules (accepted
    image types and the stored file name), the filter, sort and paging the
    list builds from its query, and product creation. */
module ProductsRouter {
  import opened Common
  import opened Strings
  import opened Numbers
  import opened Paging
  import opened ProductModel
  import opened Tables

  // ---------------------------------------------------------------------
  // Uploads

  /** An uploaded file: its original name, its MIME type and the instant
      (`Date.now()`, in milliseconds) the storage engine named it. */
  datatype Upload = Upload(originalname: string, mimetype: string, storedAt: nat)

  const InvalidImageType := "Invalid image type"

  /** FILE_TYPE_MAP: the extension stored for each accepted MIME type. */
  function Extension(mimetype: string): (ext: Option<string>)
    ensures ext.Some? <==> mimetype in {"image/png", "image/jpeg", "image/jpg"}
    ensures ext.Some? ==> mimetype == "image/" + ext.value
  {
    if mimetype == "image/png" then Some("png")
    else if mimetype == "image/jpeg" then Some("jpeg")
    else if mimetype == "image/jpg" then Some("jpg")
    else None
  }

  /** The storage engine's name for an accepted file: the original name
      with each space turned into '-', then '-', the instant and the
      extension. */
  function StoredName(file: Upload): string
    requires Extension(file.mimetype).Some?
  {
    Join(Split(file.originalname, ' '), "-") + "-" + Decimal(file.storedAt) + "." + Extension(file.mimetype).value
  }

  /** The stored name is the original name with spaces replaced, followed
      by "-", the decimal instant, "." and the extension; it holds no
      space at all. */
  lemma StoredNameShape(file: Upload)
    requires Extension(file.mimetype).Some?
    ensures var name := StoredName(file);
      var ext := Extension(file.mimetype).value;
      && name == Replace(file.originalname, ' ', '-') + "-" + Decimal(file.storedAt) + "." + ext
      && |name| == |file.originalname| + |Decimal(file.storedAt)| + |ext| + 2
      && forall k :: 0 <= k < |name| ==> name[k] != ' '
  {
    SplitJoinReplaces(file.originalname, ' ', '-');
    var name := StoredName(file);
    var ext := Extension(file.mimetype).value;
    var stem := Replace(file.originalname, ' ', '-');
    var digits := Decimal(file.storedAt);
    assert name == stem + ("-" + digits + "." + ext);
    forall k | 0 <= k < |name|
      ensures name[k] != ' '
    {
      if k >= |stem| + 1 && k < |stem| + 1 + |digits| {
        assert name[k] == digits[k - |stem| - 1];
        assert IsDigit(digits[k - |stem| - 1]);
      }
    }
  }

  /** The storage engine's check, which runs before the handler: a file of
      any other type is refused with 'Invalid image type' (500). */
  function UploadCheck(file: Option<Upload>): (r: Option<Reply>)
    ensures r.None? <==> file.None? || Extension(file.value.mimetype).Some?
    ensures r.Some? ==> r.value == Reply(500, InvalidImageType)
  {
    if file.Some? && Extension(file.value.mimetype).None? then Some(Reply(500, InvalidImageType))
    else None
  }

  // ---------------------------------------------------------------------
  // The list query

  /** The query string of GET /; an absent parameter is "". */
  datatype ProductQuery = ProductQuery(
    categories: string, brand: string, colour: string, minPrice: string, maxPrice: string,
    page: string, limit: string, sort: string)

  /** The price constraint: both bounds, one of them, or none. */
  datatype PriceBound = NoBound | AtLeast(min: string) | AtMost(max: string) | Between(min: string, max: string)

  /** The filter document: a category membership list, exact brand and
      colour, and the price constraint; None where the query gives none. */
  datatype Filter = Filter(categories: Option<seq<string>>, brand: Option<string>, colour: Option<string>,
                           price: PriceBound)

  /** The price constraint for the given bounds. */
  function PriceFilter(minPrice: string, maxPrice: string): (b: PriceBound)
    ensures b.Between? <==> minPrice != "" && maxPrice != ""
    ensures b.AtLeast? <==> minPrice != "" && maxPrice == ""
    ensures b.AtMost? <==> minPrice == "" && maxPrice != ""
    ensures b.NoBound? <==> minPrice == "" && maxPrice == ""
    ensures (b.Between? || b.AtLeast?) ==> b.min == minPrice
    ensures (b.Between? || b.AtMost?) ==> b.max == maxPrice
  {
    if minPrice != "" && maxPrice != "" then Between(minPrice, maxPrice)
    else if minPrice != "" then AtLeast(minPrice)
    else if maxPrice != "" then AtMost(maxPrice)
    else NoBound
  }

  /** The optional constraint for a query text: present exactly when given. */
  function Given(s: string): (r: Option<string>)
    ensures r.Some? <==> s != ""
    ensures r.Some? ==> r.value == s
  {
    if s != "" then Some(s) else None
  }

  /** The filter GET / builds from its query. */
  function BuildFilter(q: ProductQuery): (f: Filter)
    ensures f.categories.Some? <==> q.categories != ""
    ensures f.brand == Given(q.brand) && f.colour == Given(q.colour)
    ensures f.price == PriceFilter(q.minPrice, q.maxPrice)
  {
    Filter(if q.categories != "" then Some(Split(q.categories, ',')) else None,
           Given(q.brand), Given(q.colour), PriceFilter(q.minPrice, q.maxPrice))
  }

  /** The category list holds the comma-separated pieces of the query:
      none of them holds a comma and, joined with commas, they give the
      query back. */
  lemma CategoryListSplitsQuery(q: ProductQuery)
    requires q.categories != ""
    ensures var list := BuildFilter(q).categories.value;
      && |list| >= 1
      && (forall i :: 0 <= i < |list| ==> ',' !in list[i])
      && Join(list, ",") == q.categories
  {
    SplitPiecesLackSeparator(q.categories, ',');
    SplitJoinRoundTrip(q.categories, ',');
  }

  /** A sort on one field, ascending or descending. */
  datatype SortSpec = SortSpec(field: string, descending: bool)

  const DefaultSortField := "dateCreated"

  /** The sort of GET /: `field:order`, descending exactly when the order
      is "desc"; an empty field is dateCreated; no parameter sorts by
      dateCreated, newest first. */
  function SortOf(sort: string): SortSpec {
    if sort == "" then SortSpec(DefaultSortField, true)
    else
      var parts := Split(sort, ':');
      SortSpec(if parts[0] != "" then parts[0] else DefaultSortField,
               |parts| > 1 && parts[1] == "desc")
  }

  /** `field:order` sorts on the field, descending exactly when the order
      is "desc"; a parameter without ':' sorts ascending. */
  lemma SortReadsParameter(field: string, order: string)
    requires ':' !in field && ':' !in order
    ensures field != "" ==> SortOf(field + ":" + order) == SortSpec(field, order == "desc")
    ensures field != "" ==> SortOf(field) == SortSpec(field, false)
    ensures SortOf(":" + order) == SortSpec(DefaultSortField, order == "desc")
    ensures SortOf("") == SortSpec(DefaultSortField, true)
  {
    SplitAtFirstSeparator(field, ':', order);
    SplitWithoutSeparator(order, ':');
    SplitWithoutSeparator(field, ':');
    assert field + ":" + order == field + [':'] + order;
    SplitAtFirstSeparator([], ':', order);
    assert ":" + order == [] + [':'] + order;
  }

  /** The paging of GET /: the page, the page size, the documents skipped
      and the page count for `count` matching documents. */
  datatype Listing = Listing(page: int, limit: int, skip: int, totalPages: int, totalProducts: nat)

  function ListingOf(q: ProductQuery, count: nat): (l: Listing)
    ensures l.page == PageNumber(q.page) && l.limit == PageSize(q.limit)
    ensures l.skip == (l.page - 1) * l.limit && l.totalPages == TotalPages(count, l.limit)
    ensures l.totalProducts == count
  {
    var page := PageNumber(q.page);
    var limit := PageSize(q.limit);
    Listing(page, limit, Skip(page, limit), TotalPages(count, limit), count)
  }

  /** With a positive page size, a page from the first on is within the
      page count exactly when its first document exists. */
  lemma ListingCoversCount(q: ProductQuery, count: nat, l: Listing)
    requires l == ListingOf(q, count)
    ensures l.limit > 0 && l.page >= 1 ==> (l.page <= l.totalPages <==> l.skip < count)
  {
    assert l.totalPages == TotalPages(count, l.limit);
    assert l.skip == Skip(l.page, l.limit);
    if l.limit > 0 && l.page >= 1 {
      PagesCoverCount(count, l.limit, l.page);
    }
  }

  // ---------------------------------------------------------------------
  // POST /

  /** The form fields of POST /; an absent text is "", an absent number
      None, and `category` is None when the form gives none. */
  datatype ProductRequest = ProductRequest(
    name: string, description: string, images: seq<string>, brand: string, price: Option<int>,
    colour: string, size: Size, category: Option<IdParam>, countInStock: Option<int>)

  const InvalidCategory := "Invalid category"
  const NoImage := "No image provided"
  const CastError := "Cast to ObjectId failed"
  const ProductCreated := "Product created successfully"
  /** The message of the error a rejected save raises. */
  const SaveRejected := "Product validation failed"
  /** The error `new Product(...)` raises: line 1 binds the module object,
      not the model. */
  const NotAConstructor := "Product is not a constructor"

  /** The checks of POST / in order, and the product document it builds:
      the upload check first, then the category (absent or unknown is 400,
      text that is not an id 500), then the file (400 when missing). The
      document's image is the base path followed by the stored name. */
  function PrepareProduct(categories: map<Id, Category>, req: ProductRequest, file: Option<Upload>,
                          basePath: string, now: int): (r: Result<Product>)
    ensures UploadCheck(file).Some? ==> r == Fail(UploadCheck(file).value)
    ensures UploadCheck(file).None? && req.category.Some? && req.category.value.NotAnId? ==>
              r == Fail(Reply(500, CastError))
    ensures UploadCheck(file).None? && (req.category.None? || (req.category.value.ObjectId? && req.category.value.id !in categories)) ==>
              r == Fail(Reply(400, InvalidCategory))
    ensures r.Ok? <==>
              && UploadCheck(file).None? && file.Some?
              && req.category.Some? && req.category.value.ObjectId? && req.category.value.id in categories
    ensures r.Ok? ==>
              && r.value.category == Some(req.category.value.id)
              && r.value.image == basePath + StoredName(file.value)
              && r.value.dateCreated == now && r.value.rating == 0
              && r.value.name == req.name && r.value.price == req.price
              && r.value.countInStock == req.countInStock
  {
    if UploadCheck(file).Some? then Fail(UploadCheck(file).value)
    else if req.category.Some? && req.category.value.NotAnId? then Fail(Reply(500, CastError))
    else if req.category.None? || req.category.value.id !in categories then Fail(Reply(400, InvalidCategory))
    else if file.None? then Fail(Reply(400, NoImage))
    else
      Ok(Product(req.name, req.description, req.price, req.colour, req.size, Some(req.category.value.id),
                 req.countInStock, now, basePath + StoredName(file.value), req.images, req.brand, 0))
  }

  /** A missing file is reported only once the category is known. */
  lemma CategoryCheckedBeforeFile(categories: map<Id, Category>, req: ProductRequest,
                                  basePath: string, now: int)
    ensures req.category.Some? && req.category.value.NotAnId? ==>
              PrepareProduct(categories, req, None, basePath, now) == Fail(Reply(500, CastError))
    ensures req.category.None? || req.category.value.ObjectId? ==>
              PrepareProduct(categories, req, None, basePath, now).reply.code == 400
    ensures PrepareProduct(categories, req, None, basePath, now).reply.message == NoImage <==>
              req.category.Some? && req.category.value.ObjectId? && req.category.value.id in categories
  {
  }

  /** POST / as written: the checks run, then constructing the product
      throws, so the reply is 500 and nothing is stored. */
  function CreateAsWritten(categories: map<Id, Category>, req: ProductRequest, file: Option<Upload>,
                           basePath: string, now: int): (r: Result<Product>)
    ensures r.Fail?
    ensures PrepareProduct(categories, req, file, basePath, now).Ok? ==> r.reply == Reply(500, NotAConstructor)
  {
    match PrepareProduct(categories, req, file, basePath, now)
    case Fail(e) => Fail(e)
    case Ok(_) => Fail(Reply(500, NotAConstructor))
  }

  /** A request the intended handler stores, which the code as written
      refuses: a known category, a PNG upload and every required field. */
  lemma ImportCounterexample()
    ensures var categories := map[3 := Category("Shoes", "shoe", "red", None)];
      var req := ProductRequest("Boot", "Leather boot", [], "", Some(100), "brown", NumericSize(42),
                                Some(ObjectId(3)), Some(5));
      var file := Some(Upload("boot.png", "image/png", 0));
      && PrepareProduct(categories, req, file, "", 0).Ok?
      && ValidProduct(PrepareProduct(categories, req, file, "", 0).value)
      && CreateAsWritten(categories, req, file, "", 0) == Fail(Reply(500, NotAConstructor))
  {
  }

  /** POST / as evidently intended: the prepared product is stored when it
      passes validation (201), otherwise the save's error (500). */
  method CreateProduct(db: Database, req: ProductRequest, file: Option<Upload>, basePath: string, now: int)
    returns (reply: Reply, productId: Option<Id>)
    requires db.Valid()
    modifies db`products, db`nextId
    ensures db.Valid()
    ensures var r := PrepareProduct(old(db.categories), req, file, basePath, now);
      && (r.Fail? ==> reply == r.reply && productId.None? && db.products == old(db.products))
      && (r.Ok? && !ValidProduct(r.value) ==>
            reply == Reply(500, SaveRejected) && productId.None? && db.products == old(db.products))
      && (r.Ok? && ValidProduct(r.value) ==>
            && reply == Reply(201, ProductCreated) && productId == Some(old(db.nextId))
            && old(db.nextId) !in old(db.products)
            && db.products == old(db.products)[old(db.nextId) := r.value])
  {
    var prepared := PrepareProduct(db.categories, req, file, basePath, now);
    if prepared.Fail? {
      return prepared.reply, None;
    }
    if !ValidProduct(prepared.value) {
      return Reply(500, SaveRejected), None;
    }
    var id := db.IssueId();
    db.PutProduct(id, prepared.value);
    reply := Reply(201, ProductCreated);
    productId := Some(id);
  }
}
