/**
 * The add/edit product dialog: its validation schema, the reset that fills
 * it from a product, the image upload with its progress percentage, and
 * the submit rule that produces one create/update request whose payload
 * normalises the optional fields.
 */
module ProductForm {
  import opened Wrappers
  import opened JsNumber
  import opened Catalog

  /** The form's fields; price and stock come from number inputs and may be fractional. */
  datatype ProductValues = ProductValues(
    name: string,
    description: string,
    price: real,
    stock: real,
    barcode: string,
    category: Option<string>)

  /** The schema's checks, in the order the schema runs them. */
  datatype Rule = NameRequired | PriceNegative | StockNotInteger | StockNegative

  function Message(r: Rule): string {
    match r
    case NameRequired => "Name is required"
    case PriceNegative => "Price must be positive"
    case StockNotInteger => "Expected integer, received float"
    case StockNegative => "Stock must be non-negative"
  }

  predicate Fails(r: Rule, v: ProductValues) {
    match r
    case NameRequired => v.name == ""
    case PriceNegative => v.price < 0.0
    case StockNotInteger => v.stock.Floor as real != v.stock
    case StockNegative => v.stock < 0.0
  }

  /** What the schema accepts: a name, a price of at least 0 and a whole stock of at least 0. */
  predicate SchemaValid(v: ProductValues) {
    v.name != "" && v.price >= 0.0 && v.stock.Floor as real == v.stock && v.stock >= 0.0
  }

  /** The rule a failed check reports. */
  function Check(failed: bool, rule: Rule): (r: seq<Rule>)
    ensures r == [] <==> !failed
    ensures forall x :: x in r <==> failed && x == rule
  {
    if failed then [rule] else []
  }

  /** Every rule that fails, in schema order; a negative fractional stock reports both stock rules. */
  function SchemaIssues(v: ProductValues): (issues: seq<Rule>)
    ensures issues == [] <==> SchemaValid(v)
    ensures forall r :: r in issues <==> Fails(r, v)
  {
    Check(v.name == "", NameRequired)
    + Check(v.price < 0.0, PriceNegative)
    + Check(v.stock.Floor as real != v.stock, StockNotInteger)
    + Check(v.stock < 0.0, StockNegative)
  }

  /** The empty form a new product starts from. */
  const Defaults := ProductValues("", "", 0.0, 0.0, "", None)

  /** The form filled from an existing product; a missing barcode is "", a missing or empty category none. */
  function ValuesOf(p: Product): (v: ProductValues)
    ensures v.name == p.name && v.description == p.description && v.price == p.price && v.stock == p.stock as real
    ensures v.barcode == p.barcode.GetOr("")
    ensures v.category.Some? <==> p.category.Some? && p.category.value.documentId != ""
    ensures v.category.Some? ==> v.category.value == p.category.value.documentId
  {
    var category := if p.category.Some? && p.category.value.documentId != "" then Some(p.category.value.documentId) else None;
    ProductValues(p.name, p.description, p.price, p.stock as real, p.barcode.GetOr(""), category)
  }

  /** A stored product always passes the schema again once its name is non-empty and its price and stock are not negative. */
  lemma StoredProductRevalidates(p: Product)
    requires p.name != "" && p.price >= 0.0 && p.stock >= 0
    ensures SchemaValid(ValuesOf(p))
  {
  }

  /** `Math.round(loaded * 100 / total)`. */
  function Percent(loaded: real, total: real): (pct: int)
    requires total != 0.0
  {
    Round(loaded * 100.0 / total)
  }

  /** Progress never leaves 0..100 while the bytes sent stay within the total. */
  lemma PercentInRange(loaded: real, total: real)
    requires 0.0 <= loaded <= total && total > 0.0
    ensures 0 <= Percent(loaded, total) <= 100
    ensures loaded == total ==> Percent(loaded, total) == 100
  {
    var x := loaded * 100.0 / total;
    assert x * total == loaded * 100.0;
    assert 0.0 <= x <= 100.0;
    if loaded == total {
      assert (x - 100.0) * total == 0.0;
      assert x == 100.0;
      RoundUnique(x, 100);
    }
  }

  /** The stored fields of a product as the request sends them. */
  datatype Payload = Payload(
    name: string,
    description: string,
    price: real,
    stock: real,
    barcode: Option<string>,
    category: Option<string>,
    image: Option<int>)

  /** An empty barcode is sent as null, an empty category left out, and the image is the current image id. */
  function PayloadOf(v: ProductValues, imageId: Option<int>): (p: Payload)
    ensures p.name == v.name && p.description == v.description && p.price == v.price && p.stock == v.stock
    ensures p.barcode.None? <==> v.barcode == ""
    ensures p.barcode.Some? ==> p.barcode.value == v.barcode
    ensures p.category.None? <==> v.category.GetOr("") == ""
    ensures p.category.Some? ==> p.category == v.category
    ensures p.image == imageId
  {
    Payload(v.name, v.description, v.price, v.stock,
            if v.barcode != "" then Some(v.barcode) else None,
            if v.category.GetOr("") != "" then v.category else None,
            imageId)
  }

  datatype Request = Create(body: Payload) | Update(path: string, body: Payload)

  /** Editing a stored product (non-zero id) updates it; anything else creates one. */
  function RequestFor(item: Option<Product>, body: Payload): (r: Request)
    ensures r.body == body
    ensures r.Update? <==> item.Some? && item.value.id != 0
    ensures r.Update? ==> r.path == "/api/products/" + item.value.documentId
  {
    if item.Some? && item.value.id != 0 then Update("/api/products/" + item.value.documentId, body) else Create(body)
  }

  function SaveMessage(r: Request, ok: bool): (message: string)
    ensures !ok ==> message == "Failed to save product"
    ensures ok && r.Update? ==> message == "Product updated successfully"
    ensures ok && r.Create? ==> message == "Product created successfully"
  {
    if !ok then "Failed to save product"
    else if r.Update? then "Product updated successfully" else "Product created successfully"
  }

  datatype SubmitOutcome =
    | Ignored                    // the button is disabled while saving or uploading
    | Invalid(issues: seq<Rule>)
    | Sent(request: Request)

  class Form {
    var values: ProductValues
    var loading: bool
    var uploading: bool
    var progress: int
    var preview: Option<string>
    var imageId: Option<int>

    /** A preview is shown exactly when there is an image id to send. */
    ghost predicate Valid()
      reads this
    {
      preview.Some? <==> imageId.Some?
    }

    constructor()
      ensures Valid()
      ensures values == Defaults && !loading && !uploading && progress == 0
      ensures preview == None && imageId == None
    {
      values := Defaults;
      loading := false;
      uploading := false;
      progress := 0;
      preview := None;
      imageId := None;
    }

    /** The dialog opened: reset from the product (image from its first upload) or to the defaults. */
    method Sync(isOpen: bool, item: Option<Product>)
      requires Valid()
      modifies this
      ensures Valid()
      ensures !isOpen ==> values == old(values) && preview == old(preview) && imageId == old(imageId)
      ensures isOpen && item.None? ==> values == Defaults && preview == None && imageId == None
      ensures isOpen && item.Some? ==> values == ValuesOf(item.value)
      ensures isOpen && item.Some? && item.value.image != [] ==>
                preview == Some(item.value.image[0].url) && imageId == Some(item.value.image[0].id)
      ensures isOpen && item.Some? && item.value.image == [] ==> preview == None && imageId == None
      ensures loading == old(loading) && uploading == old(uploading) && progress == old(progress)
    {
      if !isOpen {
        return;
      }
      if item.Some? {
        values := ValuesOf(item.value);
        if item.value.image != [] {
          preview := Some(item.value.image[0].url);
          imageId := Some(item.value.image[0].id);
        } else {
          preview := None;
          imageId := None;
        }
      } else {
        values := Defaults;
        preview := None;
        imageId := None;
      }
    }

    /** The user typed into the fields. */
    method Edit(v: ProductValues)
      modifies this
      ensures values == v
      ensures loading == old(loading) && uploading == old(uploading) && progress == old(progress)
      ensures preview == old(preview) && imageId == old(imageId)
    {
      values := v;
    }

    /** A file was picked (the picker is disabled while an upload runs); no file does nothing. */
    method StartUpload(fileChosen: bool)
      requires !uploading
      modifies this
      ensures fileChosen ==> uploading && progress == 0
      ensures !fileChosen ==> uploading == old(uploading) && progress == old(progress)
      ensures values == old(values) && loading == old(loading)
      ensures preview == old(preview) && imageId == old(imageId)
    {
      if fileChosen {
        uploading := true;
        progress := 0;
      }
    }

    /** A progress event; it changes the percentage only when it knows the total. */
    method UploadProgress(loaded: real, total: real)
      modifies this
      ensures total != 0.0 ==> progress == Percent(loaded, total)
      ensures total == 0.0 ==> progress == old(progress)
      ensures values == old(values) && loading == old(loading) && uploading == old(uploading)
      ensures preview == old(preview) && imageId == old(imageId)
    {
      if total != 0.0 {
        progress := Percent(loaded, total);
      }
    }

    /** The upload answered with the stored file: it becomes the preview and the image to send. */
    method UploadSucceeded(url: string, id: int)
      modifies this
      ensures Valid()
      ensures preview == Some(url) && imageId == Some(id) && !uploading
      ensures values == old(values) && loading == old(loading) && progress == old(progress)
    {
      preview := Some(url);
      imageId := Some(id);
      uploading := false;
    }

    /** The upload failed: the previous image stays. */
    method UploadFailed()
      modifies this
      ensures !uploading
      ensures values == old(values) && loading == old(loading) && progress == old(progress)
      ensures preview == old(preview) && imageId == old(imageId)
    {
      uploading := false;
    }

    /** The remove button on the preview: the preview and the id go together. */
    method RemoveImage()
      modifies this
      ensures Valid() && preview == None && imageId == None
      ensures values == old(values) && loading == old(loading) && uploading == old(uploading)
      ensures progress == old(progress)
    {
      preview := None;
      imageId := None;
    }

    /** "Save Changes": ignored while saving or uploading, refused by the schema, or sent. */
    method Submit(item: Option<Product>) returns (out: SubmitOutcome)
      modifies this
      ensures old(loading) || old(uploading) ==> out == Ignored
      ensures !old(loading) && !old(uploading) && !SchemaValid(values) ==> out == Invalid(SchemaIssues(values))
      ensures !old(loading) && !old(uploading) && SchemaValid(values) ==>
                out == Sent(RequestFor(item, PayloadOf(values, imageId)))
      ensures loading == (old(loading) || out.Sent?)
      ensures values == old(values) && uploading == old(uploading) && progress == old(progress)
      ensures preview == old(preview) && imageId == old(imageId)
    {
      if loading || uploading {
        return Ignored;
      }
      if !SchemaValid(values) {
        return Invalid(SchemaIssues(values));
      }
      loading := true;
      out := Sent(RequestFor(item, PayloadOf(values, imageId)));
    }

    /** The request answered: its message, and the button is enabled again. */
    method SaveFinished(r: Request, ok: bool) returns (message: string)
      modifies this
      ensures message == SaveMessage(r, ok) && !loading
      ensures values == old(values) && uploading == old(uploading) && progress == old(progress)
      ensures preview == old(preview) && imageId == old(imageId)
    {
      loading := false;
      message := SaveMessage(r, ok);
    }
  }
}
