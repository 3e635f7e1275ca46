/** The product catalogue as the dashboard reads it from the content API. */
module Catalog {
  import opened Wrappers

  datatype Category = Category(id: int, documentId: string, name: string, description: string)

  /** An uploaded image; `thumbnailUrl` is `formats.thumbnail.url` when the upload has one. */
  datatype ProductImage = ProductImage(
    id: int,
    documentId: string,
    url: string,
    alternativeText: Option<string>,
    thumbnailUrl: Option<string>)

  datatype Product = Product(
    id: int,
    documentId: string,
    name: string,
    description: string,
    price: real,
    stock: int,
    barcode: Option<string>,
    category: Option<Category>,
    image: seq<ProductImage>)
}
