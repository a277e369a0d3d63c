/** The storefront's records: products, their detail view, cart items and
    the paginated product list envelope. */
module Catalog {
  import opened Wrappers

  /** A catalogue entry, with the members the mock catalogue carries. */
  datatype Product = Product(id: int, name: string, brand: string, color: string, price: int, thumbnailUrl: string)

  datatype ProductOption = ProductOption(size: int, stock: int)

  datatype ProductImage = ProductImage(imageUrl: string, sortOrder: int, thumbnail: bool)

  datatype ProductDetail = ProductDetail(
    name: string, brand: string, color: string, price: int,
    options: seq<ProductOption>, images: seq<ProductImage>)

  datatype CartItem = CartItem(id: int, productId: int, product: Product, quantity: int)

  /** A page of products as the backend pages them. `totalPages` is `None`
      where JavaScript's quotient is not a finite number (a page size of 0).
      Of the `pageable` block, the page number, page size and offset. */
  datatype ProductPage = ProductPage(
    content: seq<Product>,
    pageNumber: int, pageSize: int, offset: int,
    last: bool, totalPages: Option<int>, totalElements: int, first: bool,
    size: int, number: int, numberOfElements: int, empty: bool)
}
