/**
 * The rest_api crate's product records: the stored `Product`, the request
 * bodies `ProductDTO` / `UpdateProductDTO` with their validator rules, and
 * the `ProductResponse` projection.
 */
module ProductModels {
  import opened Wrappers
  import opened ObjectIds
  import AE = ApiErrors

  /** Rust `u32`: price and stock can never be negative. */
  newtype U32 = x: int | 0 <= x <= 0xFFFF_FFFF

  /** A BSON date, in milliseconds since the epoch. */
  type Timestamp = int

  datatype Product = Product(
    id: Option<ObjectId>,
    user_id: ObjectId,
    name: string,
    sku: string,
    price: U32,
    stock: U32,
    category_id: Option<ObjectId>,
    created_at: Option<Timestamp>,
    updated_at: Option<Timestamp>)

  datatype ProductDTO = ProductDTO(
    name: string,
    sku: Option<string>,
    price: U32,
    stock: U32,
    category_id: Option<string>)

  datatype UpdateProductDTO = UpdateProductDTO(
    name: Option<string>,
    sku: Option<string>,
    stock: Option<U32>,
    price: Option<U32>,
    category_id: Option<string>)

  const MinPrice := 100
  const MaxStock := 99999

  /** The validator's `length(min = 1)` counts characters. */
  predicate NameOk(name: string) { |name| >= 1 }

  predicate PriceOk(price: int) { price >= MinPrice }

  predicate StockOk(stock: int) { stock <= MaxStock }

  /** `ProductDTO::validate()`: the empty list when the body is valid. */
  function ValidateProduct(dto: ProductDTO): (errs: AE.ValidationErrors)
    ensures "name" in AE.FieldNames(errs) <==> |dto.name| == 0
    ensures "price" in AE.FieldNames(errs) <==> dto.price < 100
    ensures "stock" in AE.FieldNames(errs) <==> dto.stock > 99999
    ensures AE.FieldNames(errs) <= {"name", "price", "stock"}
    ensures errs == [] <==> NameOk(dto.name) && PriceOk(dto.price as int) && StockOk(dto.stock as int)
  {
    var a := AE.Rule(NameOk(dto.name), "name", "length", "Kolom name wajib diisi!");
    var b := AE.Rule(PriceOk(dto.price as int), "price", "range", "Harga minimal 100");
    var c := AE.Rule(StockOk(dto.stock as int), "stock", "range", "Stok maksimal 99999");
    AE.FieldNamesConcat(a, b);
    AE.FieldNamesConcat(a + b, c);
    a + b + c
  }

  /** `UpdateProductDTO::validate()`: absent fields always pass. */
  function ValidateProductUpdate(dto: UpdateProductDTO): (errs: AE.ValidationErrors)
    ensures "name" in AE.FieldNames(errs) <==> dto.name.Some? && |dto.name.value| == 0
    ensures "stock" in AE.FieldNames(errs) <==> dto.stock.Some? && dto.stock.value > 99999
    ensures "price" in AE.FieldNames(errs) <==> dto.price.Some? && dto.price.value < 100
    ensures AE.FieldNames(errs) <= {"name", "stock", "price"}
  {
    var a := AE.Rule(dto.name.None? || NameOk(dto.name.value), "name", "length", "Kolom name tidak boleh kosong");
    var b := AE.Rule(dto.stock.None? || StockOk(dto.stock.value as int), "stock", "range", "Stok maksimal 99999");
    var c := AE.Rule(dto.price.None? || PriceOk(dto.price.value as int), "price", "range", "Harga minimal 100");
    AE.FieldNamesConcat(a, b);
    AE.FieldNamesConcat(a + b, c);
    a + b + c
  }

  datatype ProductResponse = ProductResponse(
    id: string,
    user_id: string,
    name: string,
    sku: string,
    price: U32,
    stock: U32,
    category_id: Option<string>,
    created_at: Option<string>,
    updated_at: Option<string>)

  /**
   * `From<Product> for ProductResponse`. It panics on a product without an
   * id, hence the precondition; `rfc3339` renders a BSON date.
   */
  function ToResponse(p: Product, rfc3339: Timestamp -> string): (r: ProductResponse)
    requires p.id.Some?
    ensures ParseObjectId(r.id) == p.id && ParseObjectId(r.user_id) == Some(p.user_id)
    ensures r.name == p.name && r.sku == p.sku && r.price == p.price && r.stock == p.stock
    ensures r.category_id.Some? <==> p.category_id.Some?
    ensures p.category_id.Some? ==> ParseObjectId(r.category_id.value) == p.category_id
    ensures r.created_at.Some? <==> p.created_at.Some?
    ensures r.updated_at.Some? <==> p.updated_at.Some?
  {
    ParseToHexEvery();
    ProductResponse(
      ToHex(p.id.value),
      ToHex(p.user_id),
      p.name,
      p.sku,
      p.price,
      p.stock,
      if p.category_id.Some? then Some(ToHex(p.category_id.value)) else None,
      if p.created_at.Some? then Some(rfc3339(p.created_at.value)) else None,
      if p.updated_at.Some? then Some(rfc3339(p.updated_at.value)) else None)
  }
}
