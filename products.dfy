/** The product API helpers: the list query with its mock pagination
    fallback, the detail lookup with its mock fallback, and the multipart
    forms for creating and updating a product. */
module Products {
  import opened Wrappers
  import opened Text
  import opened Catalog
  import opened Client

  const ProductsPath := "/api/products"
  const MockFallbackMessage := "Mock data fallback"
  const ProductNotFoundMessage := "Mock product not found"
  const DefaultPage := 0
  const DefaultPageSize := 10

  // ---------------------------------------------------------------------
  // Query parameters

  datatype SortType = Latest | PriceAsc | PriceDesc | NameAsc

  function SortTypeName(t: SortType): string {
    match t
    case Latest => "LATEST"
    case PriceAsc => "PRICE_ASC"
    case PriceDesc => "PRICE_DESC"
    case NameAsc => "NAME_ASC"
  }

  /** The list filters; every member is optional. */
  datatype Filters = Filters(
    name: Option<string>, productSize: Option<int>, color: Option<string>,
    minPrice: Option<int>, maxPrice: Option<int>, sortType: Option<SortType>,
    page: Option<int>, size: Option<int>)

  const NoFilters := Filters(None, None, None, None, None, None, None, None)

  /** `if (n)` for an optional number: absent and 0 are falsy. */
  predicate NumberIsTruthy(n: Option<int>) {
    n.Some? && n.value != 0
  }

  type Params = seq<(string, string)>

  function NumberParam(n: Option<int>): Option<string> {
    if NumberIsTruthy(n) then Some(IntToString(n.value)) else None
  }

  /** The entry for `key`, when there is a value to send. */
  function Param(key: string, v: Option<string>): (r: Params)
    ensures |r| <= 1
    ensures r != [] <==> v.Some?
    ensures r != [] ==> r[0] == (key, v.value)
  {
    if v.Some? then [(key, v.value)] else []
  }

  function PageOf(f: Filters): int {
    f.page.GetOr(DefaultPage)
  }

  function SizeOf(f: Filters): int {
    f.size.GetOr(DefaultPageSize)
  }

  function StringParam(s: Option<string>): Option<string> {
    if IsTruthy(s) then s else None
  }

  function SortParam(t: Option<SortType>): Option<string> {
    if t.Some? then Some(SortTypeName(t.value)) else None
  }

  /** The six optional parameters in their fixed order, each only when its
      filter is truthy. */
  function OptionalQuery(f: Filters): (r: Params)
    ensures |r| <= 6
  {
    Param("name", StringParam(f.name))
    + Param("productSize", NumberParam(f.productSize))
    + Param("color", StringParam(f.color))
    + Param("minPrice", NumberParam(f.minPrice))
    + Param("maxPrice", NumberParam(f.maxPrice))
    + Param("sortType", SortParam(f.sortType))
  }

  /** The query: the optional parameters, then `page` and `size`, which are
      always sent. */
  function QuerySpec(f: Filters): (r: Params)
    ensures 2 <= |r| <= 8
    ensures r[|r| - 2] == ("page", IntToString(PageOf(f)))
    ensures r[|r| - 1] == ("size", IntToString(SizeOf(f)))
  {
    OptionalQuery(f) + [("page", IntToString(PageOf(f))), ("size", IntToString(SizeOf(f)))]
  }

  /** `getProducts`' successive `append` calls. */
  method QueryParams(f: Filters) returns (params: Params)
    ensures params == QuerySpec(f)
  {
    var p1, p2, p3 := Param("name", StringParam(f.name)), Param("productSize", NumberParam(f.productSize)), Param("color", StringParam(f.color));
    var p4, p5, p6 := Param("minPrice", NumberParam(f.minPrice)), Param("maxPrice", NumberParam(f.maxPrice)), Param("sortType", SortParam(f.sortType));
    params := [];
    if IsTruthy(f.name) { params := params + [("name", f.name.value)]; }
    assert params == p1;
    if NumberIsTruthy(f.productSize) { params := params + [("productSize", IntToString(f.productSize.value))]; }
    assert params == p1 + p2;
    if IsTruthy(f.color) { params := params + [("color", f.color.value)]; }
    assert params == p1 + p2 + p3;
    if NumberIsTruthy(f.minPrice) { params := params + [("minPrice", IntToString(f.minPrice.value))]; }
    assert params == p1 + p2 + p3 + p4;
    if NumberIsTruthy(f.maxPrice) { params := params + [("maxPrice", IntToString(f.maxPrice.value))]; }
    assert params == p1 + p2 + p3 + p4 + p5;
    if f.sortType.Some? { params := params + [("sortType", SortTypeName(f.sortType.value))]; }
    assert params == OptionalQuery(f);
    params := params + [("page", IntToString(PageOf(f)))];
    params := params + [("size", IntToString(SizeOf(f)))];
    assert params == OptionalQuery(f) + [("page", IntToString(PageOf(f))), ("size", IntToString(SizeOf(f)))];
  }

  /** The first of two lookups that found something. */
  function FirstFound(a: Option<string>, b: Option<string>): Option<string> {
    if a.Some? then a else b
  }

  lemma {:induction false} LookupAppend(a: Params, b: Params, k: string)
    ensures Lookup(a + b, k) == FirstFound(Lookup(a, k), Lookup(b, k))
  {
    if a != [] {
      assert (a + b)[0] == a[0];
      assert (a + b)[1..] == a[1..] + b;
      LookupAppend(a[1..], b, k);
    } else {
      assert a + b == b;
    }
  }

  lemma LookupParam(key: string, v: Option<string>, k: string)
    ensures Lookup(Param(key, v), k) == if k == key then v else None
  {
  }

  /** How a lookup of `k` reads the query: the first of its parameter
      segments that holds `k`. */
  lemma QueryLookupKey(f: Filters, k: string)
    ensures Lookup(QuerySpec(f), k)
      == FirstFound(if k == "name" then StringParam(f.name) else None,
         FirstFound(if k == "productSize" then NumberParam(f.productSize) else None,
         FirstFound(if k == "color" then StringParam(f.color) else None,
         FirstFound(if k == "minPrice" then NumberParam(f.minPrice) else None,
         FirstFound(if k == "maxPrice" then NumberParam(f.maxPrice) else None,
         FirstFound(if k == "sortType" then SortParam(f.sortType) else None,
           if k == "page" then Some(IntToString(PageOf(f))) else if k == "size" then Some(IntToString(SizeOf(f))) else None))))))
  {
    var p1, p2, p3 := Param("name", StringParam(f.name)), Param("productSize", NumberParam(f.productSize)), Param("color", StringParam(f.color));
    var p4, p5, p6 := Param("minPrice", NumberParam(f.minPrice)), Param("maxPrice", NumberParam(f.maxPrice)), Param("sortType", SortParam(f.sortType));
    var tail := [("page", IntToString(PageOf(f))), ("size", IntToString(SizeOf(f)))];
    LookupAppend(p1, p2, k);
    LookupAppend(p1 + p2, p3, k);
    LookupAppend(p1 + p2 + p3, p4, k);
    LookupAppend(p1 + p2 + p3 + p4, p5, k);
    LookupAppend(p1 + p2 + p3 + p4 + p5, p6, k);
    LookupAppend(p1 + p2 + p3 + p4 + p5 + p6, tail, k);
    assert tail[1..] == [("size", IntToString(SizeOf(f)))] && tail[1..][1..] == [];
    assert Lookup(tail, k) == if k == "page" then Some(IntToString(PageOf(f))) else if k == "size" then Some(IntToString(SizeOf(f))) else None;
    LookupParam("name", StringParam(f.name), k);
    LookupParam("productSize", NumberParam(f.productSize), k);
    LookupParam("color", StringParam(f.color), k);
    LookupParam("minPrice", NumberParam(f.minPrice), k);
    LookupParam("maxPrice", NumberParam(f.maxPrice), k);
    LookupParam("sortType", SortParam(f.sortType), k);
  }

  /** Each parameter is sent exactly when its filter is truthy, with the
      filter's value; `page` and `size` always, defaulting to 0 and 10. */
  lemma QueryLookup(f: Filters)
    ensures Lookup(QuerySpec(f), "name") == StringParam(f.name)
    ensures Lookup(QuerySpec(f), "productSize") == NumberParam(f.productSize)
    ensures Lookup(QuerySpec(f), "color") == StringParam(f.color)
    ensures Lookup(QuerySpec(f), "minPrice") == NumberParam(f.minPrice)
    ensures Lookup(QuerySpec(f), "maxPrice") == NumberParam(f.maxPrice)
    ensures Lookup(QuerySpec(f), "sortType") == SortParam(f.sortType)
    ensures Lookup(QuerySpec(f), "page") == Some(IntToString(PageOf(f)))
    ensures Lookup(QuerySpec(f), "size") == Some(IntToString(SizeOf(f)))
  {
    assert "minPrice"[1] != "maxPrice"[1] && "minPrice"[0] != "sortType"[0] && "maxPrice"[0] != "sortType"[0];
    assert "name"[0] != "page"[0] && "name"[0] != "size"[0] && "page"[0] != "size"[0];
    assert "minPrice" != "maxPrice" && "minPrice" != "sortType" && "maxPrice" != "sortType";
    assert "name" != "page" && "name" != "size" && "page" != "size";
    QueryLookupKey(f, "name");
    QueryLookupKey(f, "productSize");
    QueryLookupKey(f, "color");
    QueryLookupKey(f, "minPrice");
    QueryLookupKey(f, "maxPrice");
    QueryLookupKey(f, "sortType");
    QueryLookupKey(f, "page");
    QueryLookupKey(f, "size");
  }

  // ---------------------------------------------------------------------
  // The mock pagination fallback

  /** How `Array.prototype.slice` reads an index: negative values count from
      the end, and the result is clamped to the array. */
  function SliceIndex(i: int, len: nat): (r: nat)
    ensures r <= len
    ensures 0 <= i ==> r == if i < len then i else len
  {
    if i < 0 then (if len + i < 0 then 0 else len + i) else if i < len then i else len
  }

  /** `s.slice(start, end)`. */
  function JsSlice<T>(s: seq<T>, start: int, end: int): (r: seq<T>)
    ensures |r| <= |s|
    ensures SliceIndex(start, |s|) + |r| <= |s|
    ensures forall k :: 0 <= k < |r| ==> r[k] == s[SliceIndex(start, |s|) + k]
    ensures |r| == if SliceIndex(start, |s|) < SliceIndex(end, |s|) then SliceIndex(end, |s|) - SliceIndex(start, |s|) else 0
    ensures 0 <= start <= end <= |s| ==> r == s[start..end]
  {
    var a, b := SliceIndex(start, |s|), SliceIndex(end, |s|);
    if a < b then s[a..b] else []
  }

  /** `Math.ceil(len / size)`, `None` when the quotient is not finite. */
  function TotalPages(len: nat, size: int): (r: Option<int>)
    ensures r.Some? <==> size != 0
    ensures size > 0 ==> r.value >= 0
    ensures size < 0 ==> r.value <= 0
  {
    if size > 0 then Some((len + size - 1) / size)
    else if size < 0 then Some(-(len / -size))
    else None
  }

  /** The fallback page: a slice of the mock catalogue, with the flags and
      counts computed from the requested page and size. */
  function MockPage(mocks: seq<Product>, f: Filters): ProductPage {
    var page, size := PageOf(f), SizeOf(f);
    ProductPage(
      content := JsSlice(mocks, page * size, (page + 1) * size),
      pageNumber := page, pageSize := size, offset := page * size,
      last := page * size + size >= |mocks|,
      totalPages := TotalPages(|mocks|, size),
      totalElements := |mocks|,
      first := page == 0,
      size := size, number := page,
      numberOfElements := |mocks|,
      empty := |mocks| == 0)
  }

  /** `getProducts`: the backend's answer when the call succeeds, otherwise
      the mock page with a success envelope. */
  function GetProducts(mocks: seq<Product>, f: Filters, fetched: Result<ApiResponse<ProductPage>, ApiError>)
    : (r: ApiResponse<ProductPage>)
    ensures fetched.Ok? ==> r == fetched.value
    ensures fetched.Err? ==> r.success && r.message == Some(MockFallbackMessage) && r.data == MockPage(mocks, f)
  {
    match fetched
    case Ok(response) => response
    case Err(_) => ApiResponse(MockPage(mocks, f), true, Some(MockFallbackMessage))
  }

  lemma MulMonotone(a: int, b: int, size: int)
    requires a <= b && size > 0
    ensures a * size <= b * size
  {
  }

  /** For a positive size the page count is the least number of pages that
      hold every element. */
  lemma TotalPagesIsCeiling(len: nat, size: int)
    requires size > 0
    ensures var t := TotalPages(len, size).value;
      t >= 0 && t * size >= len && (t == 0 || (t - 1) * size < len)
  {
    var t := (len + size - 1) / size;
    assert t * size + (len + size - 1) % size == len + size - 1;
  }

  /** A page within range holds the elements from `page*size` on, at most
      `size` of them. */
  lemma MockPageContent(mocks: seq<Product>, f: Filters)
    requires PageOf(f) >= 0 && SizeOf(f) > 0
    ensures var page, size, n := PageOf(f), SizeOf(f), |mocks|;
      var lo := if page * size < n then page * size else n;
      var hi := if (page + 1) * size < n then (page + 1) * size else n;
      MockPage(mocks, f).content == mocks[lo..hi] && |MockPage(mocks, f).content| <= size
  {
    var page, size := PageOf(f), SizeOf(f);
    MulMonotone(0, page, size);
    assert (page + 1) * size == page * size + size;
  }

  /** `last` holds exactly on the final page and beyond. */
  lemma MockPageLast(mocks: seq<Product>, f: Filters)
    requires PageOf(f) >= 0 && SizeOf(f) > 0
    ensures MockPage(mocks, f).last <==> PageOf(f) + 1 >= TotalPages(|mocks|, SizeOf(f)).value
  {
    var page, size, n := PageOf(f), SizeOf(f), |mocks|;
    var t := TotalPages(n, size).value;
    TotalPagesIsCeiling(n, size);
    assert page * size + size == (page + 1) * size;
    if page + 1 >= t {
      MulMonotone(t, page + 1, size);
    } else {
      MulMonotone(page + 1, t - 1, size);
    }
  }

  /** The page with number `page` and size `size`, as the fallback slices it. */
  function PageSlice(mocks: seq<Product>, page: int, size: int): seq<Product> {
    JsSlice(mocks, page * size, (page + 1) * size)
  }

  /** The concatenation of pages `0 .. k-1`. */
  function FirstPages(mocks: seq<Product>, size: int, k: nat): seq<Product> {
    if k == 0 then [] else FirstPages(mocks, size, k - 1) + PageSlice(mocks, k - 1, size)
  }

  /** Consecutive pages tile the catalogue without gap or overlap. */
  lemma {:induction false} PagesTile(mocks: seq<Product>, size: int, k: nat)
    requires size > 0
    ensures FirstPages(mocks, size, k) == mocks[..if k * size < |mocks| then k * size else |mocks|]
  {
    if k > 0 {
      PagesTile(mocks, size, k - 1);
      var n := |mocks|;
      var lo := (k - 1) * size;
      assert lo + size == k * size;
      MulMonotone(0, k - 1, size);
      var a := if lo < n then lo else n;
      var b := if k * size < n then k * size else n;
      assert PageSlice(mocks, k - 1, size) == if a < b then mocks[a..b] else [];
      assert mocks[..a] + mocks[a..b] == mocks[..b];
    }
  }

  /** Browsing pages `0 .. totalPages-1` shows the whole catalogue once. */
  lemma AllPagesCoverCatalogue(mocks: seq<Product>, size: int)
    requires size > 0
    ensures FirstPages(mocks, size, TotalPages(|mocks|, size).value) == mocks
  {
    var t := TotalPages(|mocks|, size).value;
    TotalPagesIsCeiling(|mocks|, size);
    PagesTile(mocks, size, t);
  }

  // ---------------------------------------------------------------------
  // Product detail

  /** The position of the first product with this id (`Array.prototype.find`). */
  function FindIndex(mocks: seq<Product>, id: int): (r: Option<nat>)
    ensures r.Some? ==> r.value < |mocks| && mocks[r.value].id == id
    ensures r.Some? ==> forall j :: 0 <= j < r.value ==> mocks[j].id != id
    ensures r.None? ==> forall j :: 0 <= j < |mocks| ==> mocks[j].id != id
  {
    if mocks == [] then None
    else if mocks[0].id == id then Some(0)
    else match FindIndex(mocks[1..], id)
      case Some(i) => Some(i + 1)
      case None => None
  }

  /** The detail the fallback makes of a mock product: its own name, brand,
      colour and price, three fixed size options and its thumbnail. */
  function MockDetail(p: Product): (d: ProductDetail)
    ensures d.name == p.name && d.brand == p.brand && d.color == p.color && d.price == p.price
    ensures d.options == [ProductOption(250, 10), ProductOption(260, 5), ProductOption(270, 12)]
    ensures d.images == [ProductImage(p.thumbnailUrl, 1, true)]
  {
    ProductDetail(p.name, p.brand, p.color, p.price,
      [ProductOption(250, 10), ProductOption(260, 5), ProductOption(270, 12)],
      [ProductImage(p.thumbnailUrl, 1, true)])
  }

  /** `getProductById`: the backend's answer, or the first mock product with
      this id, or a not-found envelope. */
  function GetProductById(mocks: seq<Product>, id: int, fetched: Result<ApiResponse<ProductDetail>, ApiError>)
    : (r: ApiResponse<Option<ProductDetail>>)
    ensures fetched.Ok? ==> r == ApiResponse(Some(fetched.value.data), fetched.value.success, fetched.value.message)
    ensures fetched.Err? ==> (r.data.Some? <==> exists j :: 0 <= j < |mocks| && mocks[j].id == id)
    ensures fetched.Err? && r.data.None? ==> r == ApiResponse(None, false, Some(ProductNotFoundMessage))
    ensures fetched.Err? && r.data.Some? ==> r.success && r.message == Some(MockFallbackMessage)
    ensures fetched.Err? && r.data.Some? ==>
      exists j :: 0 <= j < |mocks| && mocks[j].id == id && r.data.value == MockDetail(mocks[j]) &&
        forall i :: 0 <= i < j ==> mocks[i].id != id
  {
    match fetched
    case Ok(response) => ApiResponse(Some(response.data), response.success, response.message)
    case Err(_) =>
      match FindIndex(mocks, id)
      case None => ApiResponse(None, false, Some(ProductNotFoundMessage))
      case Some(j) => ApiResponse(Some(MockDetail(mocks[j])), true, Some(MockFallbackMessage))
  }

  // ---------------------------------------------------------------------
  // Multipart forms

  function FilesOf(images: Option<seq<File>>): seq<File> {
    images.GetOr([])
  }

  /** A product form: the JSON metadata part `data` first, then one `images`
      part per file, in the order of the file list. */
  predicate IsProductForm(parts: seq<Part>, metadataJson: string, images: Option<seq<File>>) {
    && |parts| == 1 + |FilesOf(images)|
    && parts[0] == Part("data", JsonBlob(metadataJson))
    && forall i :: 0 <= i < |FilesOf(images)| ==> parts[i + 1] == Part("images", Upload(FilesOf(images)[i]))
  }

  method BuildProductForm(metadataJson: string, images: Option<seq<File>>) returns (parts: seq<Part>)
    ensures IsProductForm(parts, metadataJson, images)
  {
    parts := [Part("data", JsonBlob(metadataJson))];
    if images.Some? {
      var files := images.value;
      for i := 0 to |files|
        invariant |parts| == 1 + i
        invariant parts[0] == Part("data", JsonBlob(metadataJson))
        invariant forall j :: 0 <= j < i ==> parts[j + 1] == Part("images", Upload(files[j]))
      {
        parts := parts + [Part("images", Upload(files[i]))];
      }
    }
  }

  /** `createProductWithImages`: the call it hands to `authenticatedFetch`. */
  method CreateProductWithImages(metadataJson: string, images: Option<seq<File>>)
    returns (endpoint: string, options: Options)
    ensures endpoint == ProductsPath
    ensures options.httpMethod == Some("POST") && options.headers.None? && options.credentials.None?
    ensures options.body.Form? && IsProductForm(options.body.parts, metadataJson, images)
  {
    var parts := BuildProductForm(metadataJson, images);
    endpoint := ProductsPath;
    options := Options(Some("POST"), Form(parts), None, None);
  }

  /** `updateProductDetail`: the call it hands to `authenticatedFetch`. */
  method UpdateProductDetail(productId: int, metadataJson: string, images: Option<seq<File>>)
    returns (endpoint: string, options: Options)
    ensures endpoint == ProductsPath + "/" + IntToString(productId)
    ensures options.httpMethod == Some("PUT") && options.headers.None? && options.credentials.None?
    ensures options.body.Form? && IsProductForm(options.body.parts, metadataJson, images)
  {
    var parts := BuildProductForm(metadataJson, images);
    endpoint := ProductsPath + "/" + IntToString(productId);
    options := Options(Some("PUT"), Form(parts), None, None);
  }

  /** Two uploads to the same endpoint share one fingerprint whatever their
      files: a second upload issued while the first is pending joins it. */
  lemma UploadsShareFingerprint(endpoint: string, verb: string, parts1: seq<Part>, parts2: seq<Part>)
    ensures RequestKey(endpoint, Options(Some(verb), Form(parts1), None, None))
         == RequestKey(endpoint, Options(Some(verb), Form(parts2), None, None))
  {
  }
}
