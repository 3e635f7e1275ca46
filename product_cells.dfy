/**
 * The display rules of the products table's cells: which image URL a row
 * shows, its alt text, and the "N/A" fallbacks for price, barcode,
 * category and description, with long descriptions cut at 80 characters.
 * Amounts are rendered by a caller-supplied number formatter.
 */
module ProductCells {
  import opened Wrappers
  import opened Text
  import opened Catalog

  /** Where uploaded files are served from. */
  const MEDIA_ORIGIN := "http://localhost:1337"

  /** The description cell cuts longer texts to this many characters. */
  const MAX_DESCRIPTION := 80

  /** The first image's thumbnail URL, else its own URL; no image (or only empty URLs) gives none. */
  function ImageUrl(p: Product): (url: Option<string>)
    ensures p.image == [] ==> url.None?
    ensures url.Some? ==> url.value != ""
    ensures p.image != [] && p.image[0].thumbnailUrl.GetOr("") != "" ==> url == Some(p.image[0].thumbnailUrl.value)
    ensures p.image != [] && p.image[0].thumbnailUrl.GetOr("") == "" && p.image[0].url != "" ==>
              url == Some(p.image[0].url)
    ensures p.image != [] && p.image[0].thumbnailUrl.GetOr("") == "" && p.image[0].url == "" ==> url.None?
  {
    if p.image == [] then None
    else
      var chosen := if p.image[0].thumbnailUrl.GetOr("") != "" then p.image[0].thumbnailUrl.GetOr("") else p.image[0].url;
      if chosen != "" then Some(chosen) else None
  }

  /** The `src` of the row's image: the media origin followed by the URL. */
  function ImageSrc(url: string): (src: string)
    ensures StartsWith(src, MEDIA_ORIGIN) && src[|MEDIA_ORIGIN|..] == url
  {
    MEDIA_ORIGIN + url
  }

  /** The image's alternative text, or the product name when it has none. */
  function AltText(p: Product): (alt: string)
    requires p.image != []
    ensures p.image[0].alternativeText.GetOr("") != "" ==> alt == p.image[0].alternativeText.value
    ensures p.image[0].alternativeText.GetOr("") == "" ==> alt == p.name
  {
    var a := p.image[0].alternativeText.GetOr("");
    if a != "" then a else p.name
  }

  /** The price cell: a zero price reads "N/A", any other price is shown in rupees. */
  function PriceCell(price: real, num: real -> string): (cell: string)
    ensures price == 0.0 <==> cell == "N/A"
    ensures price != 0.0 ==> cell == "₹" + num(price)
  {
    if price != 0.0 then
      var cell := "₹" + num(price);
      assert cell[0] != "N/A"[0];
      cell
    else "N/A"
  }

  /** The stock figure's colour. */
  datatype StockStyle = InStock | OutOfStock

  function StockClass(stock: int): (style: StockStyle)
    ensures style == InStock <==> stock > 0
  {
    if stock > 0 then InStock else OutOfStock
  }

  /** The barcode, or "N/A" when it is missing or empty. */
  function BarcodeCell(barcode: Option<string>): (cell: string)
    ensures barcode.GetOr("") != "" ==> cell == barcode.value
    ensures barcode.GetOr("") == "" ==> cell == "N/A"
  {
    if barcode.GetOr("") != "" then barcode.GetOr("") else "N/A"
  }

  /** The category's name, or "N/A" for a product without one. */
  function CategoryCell(category: Option<Category>): (cell: string)
    ensures category.Some? ==> cell == category.value.name
    ensures category.None? ==> cell == "N/A"
  {
    match category
    case Some(c) => c.name
    case None => "N/A"
  }

  /** The description cell: its text, and the hover title a cut text carries. */
  datatype DescriptionCell = DescriptionCell(text: string, title: Option<string>)

  function Describe(description: string): (cell: DescriptionCell)
    ensures description == "" ==> cell == DescriptionCell("N/A", None)
    ensures 0 < |description| <= MAX_DESCRIPTION ==> cell == DescriptionCell(description, None)
    ensures |description| > MAX_DESCRIPTION ==>
              |cell.text| == MAX_DESCRIPTION + 3 && cell.text[..MAX_DESCRIPTION] == description[..MAX_DESCRIPTION]
              && cell.text[MAX_DESCRIPTION..] == "..." && cell.title == Some(description)
  {
    if description == "" then DescriptionCell("N/A", None)
    else if |description| > MAX_DESCRIPTION then
      DescriptionCell(description[..MAX_DESCRIPTION] + "...", Some(description))
    else DescriptionCell(description, None)
  }

  /** Nothing is lost: the full description is always either the cell's text or its title. */
  lemma DescriptionRecoverable(description: string)
    requires description != ""
    ensures (if Describe(description).title.Some? then Describe(description).title.value
             else Describe(description).text) == description
    ensures |Describe(description).text| <= MAX_DESCRIPTION + 3
  {
  }
}
