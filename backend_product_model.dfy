/**
 * The backend crate's product records: the same rules as the rest_api
 * crate's, with the price an `f64` (modelled as a real number; only
 * compared against 100.0).
 */
module BackendProductModels {
  import opened Wrappers
  import opened ObjectIds
  import AE = ApiErrors
  import PM = ProductModels

  datatype Product = Product(
    id: Option<ObjectId>,
    user_id: ObjectId,
    name: string,
    sku: string,
    price: real,
    stock: PM.U32,
    category_id: Option<ObjectId>,
    created_at: Option<PM.Timestamp>,
    updated_at: Option<PM.Timestamp>)

  datatype ProductDTO = ProductDTO(
    name: string,
    sku: Option<string>,
    price: real,
    stock: PM.U32,
    category_id: Option<string>)

  datatype UpdateProductDTO = UpdateProductDTO(
    name: Option<string>,
    sku: Option<string>,
    stock: Option<PM.U32>,
    price: Option<real>,
    category_id: Option<string>)

  predicate PriceOk(price: real) { price >= 100.0 }

  /** `ProductDTO::validate()` */
  function ValidateProduct(dto: ProductDTO): (errs: AE.ValidationErrors)
    ensures "name" in AE.FieldNames(errs) <==> |dto.name| == 0
    ensures "price" in AE.FieldNames(errs) <==> dto.price < 100.0
    ensures "stock" in AE.FieldNames(errs) <==> dto.stock > 99999
    ensures AE.FieldNames(errs) <= {"name", "price", "stock"}
    ensures errs == [] <==> PM.NameOk(dto.name) && PriceOk(dto.price) && PM.StockOk(dto.stock as int)
  {
    var a := AE.Rule(PM.NameOk(dto.name), "name", "length", "Kolom name wajib diisi!");
    var b := AE.Rule(PriceOk(dto.price), "price", "range", "Harga minimal 100");
    var c := AE.Rule(PM.StockOk(dto.stock as int), "stock", "range", "Stok maksimal 99999");
    AE.FieldNamesConcat(a, b);
    AE.FieldNamesConcat(a + b, c);
    a + b + c
  }

  /** `UpdateProductDTO::validate()`: absent fields always pass. */
  function ValidateProductUpdate(dto: UpdateProductDTO): (errs: AE.ValidationErrors)
    ensures "name" in AE.FieldNames(errs) <==> dto.name.Some? && |dto.name.value| == 0
    ensures "stock" in AE.FieldNames(errs) <==> dto.stock.Some? && dto.stock.value > 99999
    ensures "price" in AE.FieldNames(errs) <==> dto.price.Some? && dto.price.value < 100.0
    ensures AE.FieldNames(errs) <= {"name", "stock", "price"}
  {
    var a := AE.Rule(dto.name.None? || PM.NameOk(dto.name.value), "name", "length", "Kolom name tidak boleh kosong");
    var b := AE.Rule(dto.stock.None? || PM.StockOk(dto.stock.value as int), "stock", "range", "Stok maksimal 99999");
    var c := AE.Rule(dto.price.None? || PriceOk(dto.price.value), "price", "range", "Harga minimal 100");
    AE.FieldNamesConcat(a, b);
    AE.FieldNamesConcat(a + b, c);
    a + b + c
  }

  datatype ProductResponse = ProductResponse(
    id: string,
    user_id: string,
    name: string,
    sku: string,
    price: real,
    stock: PM.U32,
    category_id: Option<string>,
    created_at: Option<string>,
    updated_at: Option<string>)

  /** `From<Product> for ProductResponse`; panics on a product without an id. */
  function ToResponse(p: Product, rfc3339: PM.Timestamp -> string): (r: ProductResponse)
    requires p.id.Some?
    ensures ParseObjectId(r.id) == p.id && ParseObjectId(r.user_id) == Some(p.user_id)
    ensures r.name == p.name && r.sku == p.sku && r.price == p.price && r.stock == p.stock
    ensures r.category_id.Some? <==> p.category_id.Some?
    ensures p.category_id.Some? ==> ParseObjectId(r.category_id.value) == p.category_id
    ensures r.created_at.Some? <==> p.created_at.Some?
    ensures r.updated_at.Some? <==> p.updated_at.Some?
  {
    ParseToHexEvery();
    ProductResponse(
      ToHex(p.id.value),
      ToHex(p.user_id),
      p.name,
      p.sku,
      p.price,
      p.stock,
      if p.category_id.Some? then Some(ToHex(p.category_id.value)) else None,
      if p.created_at.Some? then Some(rfc3339(p.created_at.value)) else None,
      if p.updated_at.Some? then Some(rfc3339(p.updated_at.value)) else None)
  }
}
