/** The administrator's product API helpers: the list with its single-page
    mock fallback, and deletion, which never fails. */
module Admin {
  import opened Wrappers
  import opened Text
  import opened Catalog
  import opened Client
  import opened Products

  const AdminProductsPath := "/api/admin/products"
  const DeletedMockMessage := "상품이 삭제되었습니다 (Mock)"

  /** The fallback list: the whole mock catalogue as one page. */
  function AdminMockPage(mocks: seq<Product>): ProductPage {
    ProductPage(
      content := mocks,
      pageNumber := 0, pageSize := 10, offset := 0,
      last := true, totalPages := Some(1), totalElements := |mocks|, first := true,
      size := |mocks|, number := 0, numberOfElements := |mocks|, empty := false)
  }

  /** `getAdminProducts`: the backend's answer unchanged, or the one-page
      mock list with a success envelope. */
  function GetAdminProducts(mocks: seq<Product>, fetched: Result<ApiResponse<ProductPage>, ApiError>)
    : (r: ApiResponse<ProductPage>)
    ensures fetched.Ok? ==> r == fetched.value
    ensures fetched.Err? ==> r.success && r.message == Some(MockFallbackMessage) && r.data == AdminMockPage(mocks)
  {
    match fetched
    case Ok(response) => response
    case Err(_) => ApiResponse(AdminMockPage(mocks), true, Some(MockFallbackMessage))
  }

  /** For a non-empty catalogue the administrator's fallback is the shopper's
      fallback page 0 with the page size set to the catalogue length. */
  lemma AdminFallbackIsOneFullPage(mocks: seq<Product>)
    requires |mocks| > 0
    ensures var a := AdminMockPage(mocks);
      var m := MockPage(mocks, NoFilters.(page := Some(0), size := Some(|mocks|)));
      && a.content == m.content && a.last == m.last && a.first == m.first
      && a.totalPages == m.totalPages && a.totalElements == m.totalElements
      && a.size == m.size && a.number == m.number
      && a.numberOfElements == m.numberOfElements && a.empty == m.empty
  {
    var n := |mocks|;
    var f := NoFilters.(page := Some(0), size := Some(n));
    assert PageOf(f) == 0 && SizeOf(f) == n;
    assert (n + n - 1) / n == 1 by {
      assert (n + n - 1) == 1 * n + (n - 1);
    }
    assert JsSlice(mocks, 0 * n, (0 + 1) * n) == mocks by {
      assert 0 * n == 0 && (0 + 1) * n == n;
      assert mocks[0..n] == mocks;
    }
  }

  /** `deleteProduct`: the call it hands to `authenticatedFetch`, a bare
      DELETE to the product's own path under the administrator's list. */
  function DeleteRequest(productId: int): (r: (string, Options))
    ensures |r.0| > |AdminProductsPath| + 1
    ensures r.0[..|AdminProductsPath| + 1] == AdminProductsPath + "/"
    ensures r.0[|AdminProductsPath| + 1..] == IntToString(productId)
    ensures r.1.httpMethod == Some("DELETE") && r.1.body == NoBody
    ensures r.1.headers.None? && r.1.credentials.None?
  {
    (AdminProductsPath + "/" + IntToString(productId), Options(Some("DELETE"), NoBody, None, None))
  }

  lemma IntToStringColonFree(i: int)
    ensures ':' !in IntToString(i)
  {
    var s := IntToString(i);
    if i < 0 {
      assert s == "-" + NatToString(-i);
      assert forall k :: 1 <= k < |s| ==> s[k] == NatToString(-i)[k - 1];
    }
  }

  /** Deletions of two products never share a fingerprint, so the request
      registry never merges them; deletions of one product do. */
  lemma DeleteFingerprintsDistinct(id1: int, id2: int)
    ensures RequestKey(DeleteRequest(id1).0, DeleteRequest(id1).1) == RequestKey(DeleteRequest(id2).0, DeleteRequest(id2).1)
        <==> id1 == id2
  {
    var (e1, o1) := DeleteRequest(id1);
    var (e2, o2) := DeleteRequest(id2);
    var prefix := AdminProductsPath + "/";
    IntToStringColonFree(id1);
    IntToStringColonFree(id2);
    assert ':' !in prefix;
    assert e1 == prefix + IntToString(id1) && e2 == prefix + IntToString(id2);
    assert ':' !in e1 && ':' !in e2;
    RequestKeyExact(e1, o1, e2, o2);
    if e1 == e2 {
      assert e1[|prefix|..] == IntToString(id1);
      assert e2[|prefix|..] == IntToString(id2);
      IntToStringInjective(id1, id2);
    }
  }

  /** `deleteProduct`: given the answer to `DeleteRequest`, the backend's
      answer, or, on any failure, a success envelope with no data and the
      mock message. It never fails. */
  function DeleteProduct<T>(fetched: Result<ApiResponse<Option<T>>, ApiError>): (r: ApiResponse<Option<T>>)
    ensures fetched.Ok? ==> r == fetched.value
    ensures fetched.Err? ==> r.data.None? && r.success && r.message == Some(DeletedMockMessage)
  {
    match fetched
    case Ok(response) => response
    case Err(_) => ApiResponse(None, true, Some(DeletedMockMessage))
  }
}
