/** The product controller's pure parts: the price parser, the mapping from upload
    results to stored image records, and the required-field guard of `createProduct`.
    `JSON.parse`, `Number(...)` and the image upload are oracles passed in as functions. */
module ProductController {
  import opened Wrappers
  import opened Js

  const InvalidPriceFormat := "Invalid price format. Expected JSON string."
  const PriceRequired := "Price information is required."
  const DefaultCurrency := "INR"
  const RequiredFieldsMessage := "Title and priceAmount are required fields."
  const UploadFolder := "products"

  /** A parsed price: the coerced amount and the currency value. */
  datatype Price = Price(amount: Number, currency: Value)

  /** `{ amount: Number(amount), currency: currency || 'INR' }`. */
  function PriceOf(toNumber: Value -> Number, amount: Value, currency: Value): (p: Price)
    ensures p.amount == toNumber(amount)
    ensures Truthy(p.currency)
    ensures Truthy(currency) ==> p.currency == currency
    ensures !Truthy(currency) ==> p.currency == Str(DefaultCurrency)
  {
    Price(toNumber(amount), OrElse(currency, Str(DefaultCurrency)))
  }

  /** A `price` field that takes precedence over the flat `priceAmount` fields. */
  predicate UsablePrice(price: Value)
  {
    Truthy(price) && (price.Str? || TypeOf(price) == "object")
  }

  /** The string branch: parse the JSON text and read `amount` and `currency` from it.
      Anything that throws inside the `try` (a syntax error, or reading a property of the
      JSON `null`) becomes the invalid-format error. */
  function ParseJsonPrice(parse: string -> Option<Value>, toNumber: Value -> Number, text: string): (r: Result<Price, string>)
    ensures r.Err? <==> parse(text).None? || parse(text) == Some(Null) || parse(text) == Some(Undefined)
    ensures r.Err? ==> r.error == InvalidPriceFormat
    ensures r.Ok? ==> var parsed := parse(text).value;
      r.value == PriceOf(toNumber, Property(parsed, "amount").value, Property(parsed, "currency").value)
  {
    match parse(text)
    case None => Err(InvalidPriceFormat)
    case Some(parsed) =>
      match (Property(parsed, "amount"), Property(parsed, "currency"))
      case (Some(amount), Some(currency)) => Ok(PriceOf(toNumber, amount, currency))
      case _ => Err(InvalidPriceFormat)
  }

  /** `parsePrice(body)`. */
  function ParsePrice(parse: string -> Option<Value>, toNumber: Value -> Number, body: map<string, Value>): (r: Result<Price, string>)
    ensures r.Err? ==> r.error == InvalidPriceFormat || r.error == PriceRequired
    ensures r == Err(PriceRequired) <==> !UsablePrice(Field(body, "price")) && Field(body, "priceAmount") == Undefined
    ensures r == Err(InvalidPriceFormat) <==>
      Field(body, "price").Str? && Field(body, "price").s != "" && ParseJsonPrice(parse, toNumber, Field(body, "price").s).Err?
    ensures r.Ok? ==> Truthy(r.value.currency)
  {
    var price := Field(body, "price");
    if Truthy(price) && price.Str? then
      ParseJsonPrice(parse, toNumber, price.s)
    else if Truthy(price) && TypeOf(price) == "object" then
      Ok(PriceOf(toNumber, Property(price, "amount").value, Property(price, "currency").value))
    else if Field(body, "priceAmount") != Undefined then
      Ok(PriceOf(toNumber, Field(body, "priceAmount"), Field(body, "priceCurrency")))
    else
      Err(PriceRequired)
  }

  /** A JSON-string price that decodes to an object gives its `amount`, coerced, and its
      `currency`, defaulting to 'INR'. */
  lemma StringPriceParsed(parse: string -> Option<Value>, toNumber: Value -> Number, body: map<string, Value>, fields: map<string, Value>)
    requires Field(body, "price").Str? && Field(body, "price").s != ""
    requires parse(Field(body, "price").s) == Some(Obj(fields))
    ensures ParsePrice(parse, toNumber, body) ==
      Ok(Price(toNumber(Field(fields, "amount")), OrElse(Field(fields, "currency"), Str(DefaultCurrency))))
  {
    assert Property(Obj(fields), "amount") == Some(Field(fields, "amount"));
    assert Property(Obj(fields), "currency") == Some(Field(fields, "currency"));
  }

  /** An object price gives its `amount`, coerced, and its `currency`, defaulting to 'INR'. */
  lemma ObjectPriceRead(parse: string -> Option<Value>, toNumber: Value -> Number, body: map<string, Value>)
    requires Field(body, "price").Obj?
    ensures var fields := Field(body, "price").fields;
      ParsePrice(parse, toNumber, body) ==
      Ok(Price(toNumber(Field(fields, "amount")), OrElse(Field(fields, "currency"), Str(DefaultCurrency))))
  {
  }

  /** Without a usable `price`, a `priceAmount` that is present gives that amount,
      coerced, and `priceCurrency`, defaulting to 'INR'. */
  lemma FlatPriceRead(parse: string -> Option<Value>, toNumber: Value -> Number, body: map<string, Value>)
    requires !UsablePrice(Field(body, "price")) && Field(body, "priceAmount") != Undefined
    ensures ParsePrice(parse, toNumber, body) ==
      Ok(Price(toNumber(Field(body, "priceAmount")), OrElse(Field(body, "priceCurrency"), Str(DefaultCurrency))))
  {
  }

  /** Precedence: a usable `price` decides the result whatever the flat fields say, and
      any other `price` is ignored as if it were absent. */
  lemma PricePrecedence(parse: string -> Option<Value>, toNumber: Value -> Number, body: map<string, Value>, flat: map<string, Value>)
    ensures UsablePrice(Field(body, "price")) ==>
      ParsePrice(parse, toNumber, body) == ParsePrice(parse, toNumber, flat["price" := Field(body, "price")])
    ensures !UsablePrice(Field(body, "price")) ==>
      ParsePrice(parse, toNumber, body) == ParsePrice(parse, toNumber, body - {"price"})
  {
    var price := Field(body, "price");
    var other := flat["price" := price];
    assert Field(other, "price") == price;
    assert Field(body - {"price"}, "price") == Undefined;
    assert Field(body - {"price"}, "priceAmount") == Field(body, "priceAmount");
    assert Field(body - {"price"}, "priceCurrency") == Field(body, "priceCurrency");
  }

  /** A file as multer hands it over. */
  datatype UploadedFile = UploadedFile(buffer: Value, originalName: Value)

  /** The argument passed to `imagekit.upload`. */
  datatype UploadRequest = UploadRequest(file: Value, fileName: Value, folder: string)

  /** An image record: `{ url, thumbnail, id }`. */
  datatype Image = Image(url: Value, thumbnail: Value, id: Value)

  /** Every upload requested, in file order, and the records built from their results. */
  datatype Uploads = Uploads(requests: seq<UploadRequest>, images: seq<Image>)

  function UploadRequestFor(file: UploadedFile): UploadRequest
  {
    UploadRequest(file.buffer, file.originalName, UploadFolder)
  }

  /** The record kept for one upload result. */
  function ImageFrom(result: map<string, Value>): (image: Image)
    ensures image.url == Field(result, "url")
    ensures image.thumbnail == if Truthy(Field(result, "thumbnailUrl")) then Field(result, "thumbnailUrl") else Field(result, "thumbnail")
    ensures image.id == if Truthy(Field(result, "fileId")) then Field(result, "fileId") else Field(result, "id")
  {
    Image(Field(result, "url"), OrElse(Field(result, "thumbnailUrl"), Field(result, "thumbnail")),
      OrElse(Field(result, "fileId"), Field(result, "id")))
  }

  /** The upload of each file and its mapping, element by element. */
  function UploadEach(upload: UploadRequest -> map<string, Value>, files: seq<UploadedFile>): (r: Uploads)
    ensures |r.requests| == |files| && |r.images| == |files|
    ensures forall k :: 0 <= k < |files| ==>
      r.requests[k] == UploadRequestFor(files[k]) && r.images[k] == ImageFrom(upload(r.requests[k]))
  {
    if files == [] then Uploads([], [])
    else
      var request := UploadRequestFor(files[0]);
      var rest := UploadEach(upload, files[1..]);
      Uploads([request] + rest.requests, [ImageFrom(upload(request))] + rest.images)
  }

  /** `uploadImages(files)`; an omitted argument is the empty sequence. */
  function UploadImages(upload: UploadRequest -> map<string, Value>, files: seq<UploadedFile>): (r: Uploads)
    ensures files == [] ==> r.requests == [] && r.images == []
    ensures |r.requests| == |files| && |r.images| == |files|
    ensures forall k :: 0 <= k < |files| ==>
      r.requests[k] == UploadRequestFor(files[k]) && r.images[k] == ImageFrom(upload(r.requests[k]))
  {
    if |files| == 0 then Uploads([], []) else UploadEach(upload, files)
  }

  /** The early answer of `createProduct`: HTTP 400 with a fixed message. */
  datatype Reply = Reply(status: nat, message: string)

  /** Lines 60-63: `createProduct` stops with 400 when `title` or `priceAmount` is falsy;
      `None` means it goes on. */
  function CreateProductGuard(body: map<string, Value>): (r: Option<Reply>)
    ensures r.Some? <==> !Truthy(Field(body, "title")) || !Truthy(Field(body, "priceAmount"))
    ensures r.Some? ==> r.value == Reply(400, RequiredFieldsMessage)
  {
    if !Truthy(Field(body, "title")) || !Truthy(Field(body, "priceAmount")) then
      Some(Reply(400, RequiredFieldsMessage))
    else
      None
  }

  /** A body that passes the guard always carries price information for `parsePrice`. */
  lemma GuardPassedHasPrice(parse: string -> Option<Value>, toNumber: Value -> Number, body: map<string, Value>)
    requires CreateProductGuard(body).None?
    ensures ParsePrice(parse, toNumber, body) != Err(PriceRequired)
    ensures !UsablePrice(Field(body, "price")) ==>
      ParsePrice(parse, toNumber, body).Ok? &&
      ParsePrice(parse, toNumber, body).value.amount == toNumber(Field(body, "priceAmount"))
  {
  }
}
