/**
 * The rest_api product service over the `products` collection. The
 * collection is a class holding each stored document by `_id` and the
 * natural order a cursor returns them in. Documents are kept as stored, in
 * BSON terms, because `update_product_service` writes values of other BSON
 * types than the ones `Product` reads back.
 */
module ProductService {
  import opened Wrappers
  import opened ObjectIds
  import opened ServiceErrors
  import opened ProductModels
  import Text

  /** A date field as stored: a BSON datetime, or a string. */
  datatype Stamp = DateValue(millis: Timestamp) | DateText(text: string)

  /** `category_id` as stored: an ObjectId, or a string. */
  datatype CategoryValue = OidValue(oid: ObjectId) | TextValue(text: string)

  /** A document of the `products` collection. */
  datatype ProductDoc = ProductDoc(
    id: ObjectId,
    user_id: ObjectId,
    name: string,
    sku: string,
    price: U32,
    stock: U32,
    category_id: Option<CategoryValue>,
    created_at: Option<Stamp>,
    updated_at: Option<Stamp>)

  predicate StampReadable(s: Option<Stamp>) {
    s.None? || s.value.DateValue?
  }

  function StoredStamp(t: Option<Timestamp>): Option<Stamp> {
    if t.None? then None else Some(DateValue(t.value))
  }

  function StampTime(s: Option<Stamp>): Option<Timestamp>
    requires StampReadable(s)
  {
    if s.None? then None else Some(s.value.millis)
  }

  /** bson reads an ObjectId from an ObjectId value or from its 24-digit hex text. */
  predicate CategoryReadable(c: Option<CategoryValue>) {
    c.None? || c.value.OidValue? || ParseObjectId(c.value.text).Some?
  }

  function StoredCategory(c: Option<CategoryValue>): Option<ObjectId>
    requires CategoryReadable(c)
  {
    if c.None? then None
    else if c.value.OidValue? then Some(c.value.oid)
    else ParseObjectId(c.value.text)
  }

  /**
   * Whether the document deserialises as a `Product`: its date fields must
   * hold BSON datetimes and its category an ObjectId or the hex text of one.
   */
  predicate Readable(d: ProductDoc) {
    CategoryReadable(d.category_id) && StampReadable(d.created_at) && StampReadable(d.updated_at)
  }

  /**
   * The document `insert_one` stores for a product whose `_id` is known;
   * `category_id` is serialised as its hex text.
   */
  function Encode(p: Product): (d: ProductDoc)
    requires p.id.Some?
    ensures Readable(d) && d.id == p.id.value && d.user_id == p.user_id
  {
    ParseToHexEvery();
    ProductDoc(p.id.value, p.user_id, p.name, p.sku, p.price, p.stock,
      if p.category_id.Some? then Some(TextValue(ToHex(p.category_id.value))) else None,
      StoredStamp(p.created_at), StoredStamp(p.updated_at))
  }

  /** Reading a document back as a `Product`; None when serde rejects it. */
  function Decode(d: ProductDoc): (r: Option<Product>)
    ensures r.Some? <==> Readable(d)
    ensures r.Some? ==> r.value.id == Some(d.id) && r.value.user_id == d.user_id
    ensures r.Some? ==> (r.value.category_id.Some? <==> d.category_id.Some?)
  {
    if !Readable(d) then None
    else Some(Product(Some(d.id), d.user_id, d.name, d.sku, d.price, d.stock,
      StoredCategory(d.category_id), StampTime(d.created_at), StampTime(d.updated_at)))
  }

  /** What is stored for a product with an id reads back as that same product. */
  lemma DecodeEncode(p: Product)
    requires p.id.Some?
    ensures Decode(Encode(p)) == Some(p)
  {
    var q := Decode(Encode(p)).value;
    if p.category_id.Some? {
      ParseToHex(p.category_id.value);
    }
    assert q.category_id == p.category_id;
    assert q.created_at == p.created_at && q.updated_at == p.updated_at;
  }

  /** Every id of `ids` has a document. */
  predicate AllStored(docs: map<ObjectId, ProductDoc>, ids: seq<ObjectId>) {
    forall i :: 0 <= i < |ids| ==> ids[i] in docs
  }

  /** The documents among `ids` (in that order) whose `user_id` is `owner`: what `find({"user_id": owner})` yields. */
  function OwnedDocs(docs: map<ObjectId, ProductDoc>, ids: seq<ObjectId>, owner: ObjectId): (r: seq<ProductDoc>)
    requires AllStored(docs, ids)
    ensures |r| <= |ids|
    ensures forall j :: 0 <= j < |r| ==> r[j].user_id == owner
  {
    if ids == [] then []
    else
      var front := OwnedDocs(docs, ids[..|ids| - 1], owner);
      var d := docs[ids[|ids| - 1]];
      if d.user_id == owner then front + [d] else front
  }

  /** A document is listed exactly when it is stored under one of `ids` and belongs to `owner`. */
  lemma {:induction false} OwnedDocsMembers(docs: map<ObjectId, ProductDoc>, ids: seq<ObjectId>, owner: ObjectId, d: ProductDoc)
    requires AllStored(docs, ids)
    ensures d in OwnedDocs(docs, ids, owner) <==>
      d.user_id == owner && exists i :: 0 <= i < |ids| && docs[ids[i]] == d
  {
    if ids != [] {
      var front := ids[..|ids| - 1];
      OwnedDocsMembers(docs, front, owner, d);
      if d.user_id == owner && (exists i :: 0 <= i < |ids| && docs[ids[i]] == d) {
        var i :| 0 <= i < |ids| && docs[ids[i]] == d;
        if i < |ids| - 1 {
          assert docs[front[i]] == d;
        }
      }
    }
  }

  /** Storing a document under an id outside `ids` does not change what `ids` list. */
  lemma {:induction false} OwnedDocsInsertElsewhere(docs: map<ObjectId, ProductDoc>, ids: seq<ObjectId>, owner: ObjectId, k: ObjectId, d: ProductDoc)
    requires AllStored(docs, ids) && k !in ids
    ensures AllStored(docs[k := d], ids)
    ensures OwnedDocs(docs[k := d], ids, owner) == OwnedDocs(docs, ids, owner)
  {
    if ids != [] {
      OwnedDocsInsertElsewhere(docs, ids[..|ids| - 1], owner, k, d);
    }
  }

  /** Every document decoded, in order; None as soon as one is unreadable. */
  function DecodeAll(ds: seq<ProductDoc>): (r: Option<seq<Product>>)
    ensures r.Some? <==> forall i :: 0 <= i < |ds| ==> Readable(ds[i])
    ensures r.Some? ==> |r.value| == |ds| && forall i :: 0 <= i < |ds| ==> Decode(ds[i]) == Some(r.value[i])
  {
    if ds == [] then Some([])
    else match DecodeAll(ds[..|ds| - 1])
      case None => None
      case Some(ps) =>
        match Decode(ds[|ds| - 1])
        case None => None
        case Some(p) => Some(ps + [p])
  }

  /** Listing one more id extends the listing by that id's document when it belongs to `owner`. */
  lemma OwnedDocsStep(docs: map<ObjectId, ProductDoc>, ids: seq<ObjectId>, i: nat, owner: ObjectId)
    requires i < |ids| && AllStored(docs, ids[..i]) && ids[i] in docs
    ensures AllStored(docs, ids[..i + 1])
    ensures docs[ids[i]].user_id == owner ==>
      OwnedDocs(docs, ids[..i + 1], owner) == OwnedDocs(docs, ids[..i], owner) + [docs[ids[i]]]
    ensures docs[ids[i]].user_id != owner ==>
      OwnedDocs(docs, ids[..i + 1], owner) == OwnedDocs(docs, ids[..i], owner)
  {
    assert ids[..i + 1][..i] == ids[..i];
  }

  /** Decoding one more document extends the decoded list when it is readable. */
  lemma DecodeAllSnoc(ds: seq<ProductDoc>, d: ProductDoc)
    ensures DecodeAll(ds + [d]) ==
      if DecodeAll(ds).Some? && Decode(d).Some? then Some(DecodeAll(ds).value + [Decode(d).value]) else None
  {
    assert (ds + [d])[..|ds|] == ds;
  }

  /** One unreadable document of the owner makes the whole listing fail. */
  lemma {:induction false} ListingFailsOnUnreadable(docs: map<ObjectId, ProductDoc>, ids: seq<ObjectId>, owner: ObjectId, i: nat)
    requires AllStored(docs, ids) && i < |ids|
    requires docs[ids[i]].user_id == owner && !Readable(docs[ids[i]])
    ensures DecodeAll(OwnedDocs(docs, ids, owner)).None?
  {
    OwnedDocsMembers(docs, ids, owner, docs[ids[i]]);
  }

  /** A listing that has failed on a prefix of `ids` fails on all of `ids`. */
  lemma {:induction false} ListingFailsFromPrefix(docs: map<ObjectId, ProductDoc>, ids: seq<ObjectId>, owner: ObjectId, n: nat)
    requires AllStored(docs, ids) && n <= |ids|
    requires AllStored(docs, ids[..n]) && DecodeAll(OwnedDocs(docs, ids[..n], owner)).None?
    ensures DecodeAll(OwnedDocs(docs, ids, owner)).None?
  {
    var bad :| bad in OwnedDocs(docs, ids[..n], owner) && !Readable(bad);
    OwnedDocsMembers(docs, ids[..n], owner, bad);
    var i :| 0 <= i < n && docs[ids[..n][i]] == bad;
    ListingFailsOnUnreadable(docs, ids, owner, i);
  }

  const InvalidIdMessage := "Invalid ID"
  const InvalidProductIdMessage := "Invalid product ID"
  const InvalidUserIdMessage := "Invalid user ID"
  const NothingToUpdateMessage := "Tidak ada data untuk di-update"
  const NotOwnedMessage := "Produk tidak ditemukan atau tidak dimiliki oleh user ini"

  /**
   * The SKU a new product gets: the client's, unless it is missing or only
   * whitespace, in which case the generated one.
   */
  function ChooseSku(sku: Option<string>, generated: string): (r: string)
    ensures sku.Some? && !Text.IsBlank(sku.value) ==> r == sku.value
    ensures sku.None? || Text.IsBlank(sku.value) ==> r == generated
    ensures !Text.IsBlank(generated) ==> !Text.IsBlank(r)
  {
    if sku.Some? && !Text.IsBlank(sku.value) then sku.value else generated
  }

  /** The category a new product stores: the client's text parsed as an ObjectId; dropped when malformed. */
  function ParseCategory(text: Option<string>): (r: Option<ObjectId>)
    ensures r.Some? <==> text.Some? && ParseObjectId(text.value).Some?
    ensures r.Some? ==> ParseObjectId(text.value) == r && ToHex(r.value) == ToHex(ParseObjectId(text.value).value)
  {
    if text.Some? then ParseObjectId(text.value) else None
  }

  /** The product `create_product_service` builds before inserting it. */
  function NewProduct(dto: ProductDTO, owner: ObjectId, generatedSku: string, now: Timestamp): (p: Product)
    ensures p.id.None? && p.user_id == owner
    ensures p.created_at == Some(now) && p.updated_at == p.created_at
  {
    Product(None, owner, dto.name, ChooseSku(dto.sku, generatedSku), dto.price, dto.stock,
      ParseCategory(dto.category_id), Some(now), Some(now))
  }

  /** One `$set` entry of the update document, by key. */
  datatype SetEntry =
    | SetName(name: string)
    | SetSku(sku: string)
    | SetPrice(price: U32)
    | SetStock(stock: U32)
    | SetCategory(category: string)
    | SetUpdatedAt(at: string)

  predicate NoUpdateFields(dto: UpdateProductDTO) {
    dto.name.None? && dto.sku.None? && dto.price.None? && dto.stock.None? && dto.category_id.None?
  }

  function NameEntry(dto: UpdateProductDTO): seq<SetEntry> {
    if dto.name.Some? then [SetName(dto.name.value)] else []
  }

  function SkuEntry(dto: UpdateProductDTO): seq<SetEntry> {
    if dto.sku.Some? then [SetSku(dto.sku.value)] else []
  }

  function PriceEntry(dto: UpdateProductDTO): seq<SetEntry> {
    if dto.price.Some? then [SetPrice(dto.price.value)] else []
  }

  function StockEntry(dto: UpdateProductDTO): seq<SetEntry> {
    if dto.stock.Some? then [SetStock(dto.stock.value)] else []
  }

  function CategoryEntry(dto: UpdateProductDTO): seq<SetEntry> {
    if dto.category_id.Some? then [SetCategory(dto.category_id.value)] else []
  }

  /** The entries `update_product_service` inserts into `update_doc`, one per supplied field, in that order. */
  function ProductUpdateEntries(dto: UpdateProductDTO): (doc: seq<SetEntry>)
    ensures doc == [] <==> NoUpdateFields(dto)
    ensures forall e :: e in doc ==> !e.SetUpdatedAt?
  {
    NameEntry(dto) + SkuEntry(dto) + PriceEntry(dto) + StockEntry(dto) + CategoryEntry(dto)
  }

  function ApplyEntry(d: ProductDoc, e: SetEntry): ProductDoc {
    match e
    case SetName(n) => d.(name := n)
    case SetSku(s) => d.(sku := s)
    case SetPrice(p) => d.(price := p)
    case SetStock(s) => d.(stock := s)
    case SetCategory(c) => d.(category_id := Some(TextValue(c)))
    case SetUpdatedAt(t) => d.(updated_at := Some(DateText(t)))
  }

  /** `$set`: each entry overwrites its field, in order. */
  function ApplySet(d: ProductDoc, entries: seq<SetEntry>): (r: ProductDoc)
    ensures r.id == d.id && r.user_id == d.user_id && r.created_at == d.created_at
    decreases |entries|
  {
    if entries == [] then d else ApplySet(ApplyEntry(d, entries[0]), entries[1..])
  }

  lemma {:induction false} ApplySetConcat(d: ProductDoc, a: seq<SetEntry>, b: seq<SetEntry>)
    ensures ApplySet(d, a + b) == ApplySet(ApplySet(d, a), b)
    decreases |a|
  {
    if a == [] {
      assert a + b == b;
    } else {
      assert (a + b)[0] == a[0] && (a + b)[1..] == a[1..] + b;
      ApplySetConcat(ApplyEntry(d, a[0]), a[1..], b);
    }
  }

  /**
   * The document after a successful update: each supplied field replaced,
   * the category stored as the client's text, `updated_at` as RFC 3339
   * text, and nothing else touched.
   */
  function Patched(d: ProductDoc, dto: UpdateProductDTO, nowText: string): ProductDoc {
    d.(name := dto.name.GetOr(d.name),
       sku := dto.sku.GetOr(d.sku),
       price := dto.price.GetOr(d.price),
       stock := dto.stock.GetOr(d.stock),
       category_id := if dto.category_id.Some? then Some(TextValue(dto.category_id.value)) else d.category_id,
       updated_at := Some(DateText(nowText)))
  }

  /** Applying the built update document with its `updated_at` changes exactly the supplied fields. */
  lemma ApplyOne(d: ProductDoc, e: SetEntry)
    ensures ApplySet(d, [e]) == ApplyEntry(d, e)
  {
    assert [e][1..] == [];
  }

  /** Appending an entry list that is empty or a single entry applies that entry last, or nothing. */
  lemma ApplyOptional(d: ProductDoc, prefix: seq<SetEntry>, entries: seq<SetEntry>, e: SetEntry, present: bool)
    requires entries == if present then [e] else []
    ensures ApplySet(d, prefix + entries) ==
      if present then ApplyEntry(ApplySet(d, prefix), e) else ApplySet(d, prefix)
  {
    ApplySetConcat(d, prefix, entries);
    if present {
      ApplyOne(ApplySet(d, prefix), e);
    }
  }

  lemma PatchedBySet(d: ProductDoc, dto: UpdateProductDTO, nowText: string)
    ensures ApplySet(d, ProductUpdateEntries(dto) + [SetUpdatedAt(nowText)]) == Patched(d, dto, nowText)
  {
    var a, b, c, e, f := NameEntry(dto), SkuEntry(dto), PriceEntry(dto), StockEntry(dto), CategoryEntry(dto);
    assert a == [] + a;
    ApplyOptional(d, [], a, SetName(dto.name.GetOr(d.name)), dto.name.Some?);
    ApplyOptional(d, a, b, SetSku(dto.sku.GetOr(d.sku)), dto.sku.Some?);
    ApplyOptional(d, a + b, c, SetPrice(dto.price.GetOr(d.price)), dto.price.Some?);
    ApplyOptional(d, a + b + c, e, SetStock(dto.stock.GetOr(d.stock)), dto.stock.Some?);
    ApplyOptional(d, a + b + c + e, f, SetCategory(if dto.category_id.Some? then dto.category_id.value else ""), dto.category_id.Some?);
    ApplyOptional(d, a + b + c + e + f, [SetUpdatedAt(nowText)], SetUpdatedAt(nowText), true);
  }

  /**
   * The write always stores `updated_at` as text, which `Product` cannot
   * read back as a date: the updated document is never readable.
   */
  lemma UpdatedDocumentUnreadable(d: ProductDoc, dto: UpdateProductDTO, nowText: string)
    ensures !Readable(Patched(d, dto, nowText))
    ensures Decode(Patched(d, dto, nowText)).None?
  {
  }

  /**
   * The document the update evidently intends to leave: the same `$set` as
   * written, except that `updated_at` is stored as a BSON date.
   */
  function IntendedPatchedDoc(d: ProductDoc, dto: UpdateProductDTO, now: Timestamp): (r: ProductDoc)
    ensures r.updated_at == Some(DateValue(now))
    ensures forall nowText :: r == Patched(d, dto, nowText).(updated_at := Some(DateValue(now)))
  {
    Patched(d, dto, "").(updated_at := Some(DateValue(now)))
  }

  /**
   * The updated product as evidently intended: id, owner and `created_at`
   * kept, the supplied fields replaced (the category read back from the
   * client's text) and `updated_at` now.
   */
  function IntendedPatch(p: Product, dto: UpdateProductDTO, now: Timestamp): (q: Product)
    ensures q.id == p.id && q.user_id == p.user_id && q.created_at == p.created_at
    ensures q.updated_at == Some(now)
    ensures q.name == dto.name.GetOr(p.name) && q.sku == dto.sku.GetOr(p.sku)
    ensures q.price == dto.price.GetOr(p.price) && q.stock == dto.stock.GetOr(p.stock)
    ensures dto.category_id.None? ==> q.category_id == p.category_id
    ensures dto.category_id.Some? ==> q.category_id == ParseCategory(dto.category_id)
  {
    p.(name := dto.name.GetOr(p.name),
       sku := dto.sku.GetOr(p.sku),
       price := dto.price.GetOr(p.price),
       stock := dto.stock.GetOr(p.stock),
       category_id := if dto.category_id.Some? then ParseCategory(dto.category_id) else p.category_id,
       updated_at := Some(now))
  }

  /**
   * With `updated_at` stored as a date, a readable product stays readable
   * after the update exactly when a supplied category is valid hex (as
   * written, other text cannot be read as an ObjectId), and then reads back
   * as the updated product.
   */
  lemma IntendedUpdateReadsBack(d: ProductDoc, dto: UpdateProductDTO, now: Timestamp)
    requires Readable(d)
    ensures Decode(IntendedPatchedDoc(d, dto, now)).Some? <==>
      dto.category_id.None? || ParseObjectId(dto.category_id.value).Some?
    ensures Decode(IntendedPatchedDoc(d, dto, now)).Some? ==>
      Decode(IntendedPatchedDoc(d, dto, now)).value == IntendedPatch(Decode(d).value, dto, now)
  {
    var e := IntendedPatchedDoc(d, dto, now);
    if Decode(e).Some? {
      var q, want := Decode(e).value, IntendedPatch(Decode(d).value, dto, now);
      assert q.category_id == want.category_id;
      assert q.updated_at == want.updated_at && q.created_at == want.created_at;
    }
  }

  predicate OwnedBy(docs: map<ObjectId, ProductDoc>, id: ObjectId, owner: ObjectId) {
    id in docs && docs[id].user_id == owner
  }

  /** The `update_doc` assembly: one in-place insert per supplied field. */
  method BuildProductUpdateDoc(dto: UpdateProductDTO) returns (doc: seq<SetEntry>)
    ensures doc == ProductUpdateEntries(dto)
  {
    doc := [];
    if dto.name.Some? {
      doc := doc + [SetName(dto.name.value)];
    }
    if dto.sku.Some? {
      doc := doc + [SetSku(dto.sku.value)];
    }
    if dto.price.Some? {
      doc := doc + [SetPrice(dto.price.value)];
    }
    if dto.stock.Some? {
      doc := doc + [SetStock(dto.stock.value)];
    }
    if dto.category_id.Some? {
      doc := doc + [SetCategory(dto.category_id.value)];
    }
  }

  /**
   * The cursor loop of `get_products_service`: walk the collection in
   * order, decode each of the owner's documents and push it; stop at the
   * first one that does not decode.
   */
  method ListOwned(docs: map<ObjectId, ProductDoc>, order: seq<ObjectId>, owner: ObjectId) returns (listed: Option<seq<Product>>)
    requires AllStored(docs, order)
    ensures listed == DecodeAll(OwnedDocs(docs, order, owner))
  {
    var found: seq<Product> := [];
    var i := 0;
    while i < |order|
      invariant 0 <= i <= |order|
      invariant AllStored(docs, order[..i])
      invariant DecodeAll(OwnedDocs(docs, order[..i], owner)) == Some(found)
    {
      OwnedDocsStep(docs, order, i, owner);
      var d := docs[order[i]];
      if d.user_id == owner {
        DecodeAllSnoc(OwnedDocs(docs, order[..i], owner), d);
        var p := Decode(d);
        if p.None? {
          ListingFailsFromPrefix(docs, order, owner, i + 1);
          return None;
        }
        found := found + [p.value];
      }
      i := i + 1;
    }
    assert order[..|order|] == order;
    listed := Some(found);
  }

  class ProductCollection {
    /** The stored documents by `_id`. */
    var docs: map<ObjectId, ProductDoc>
    /** The collection's natural order: the order a cursor yields documents in. */
    var order: seq<ObjectId>

    ghost predicate Valid()
      reads this
    {
      (forall i, j :: 0 <= i < j < |order| ==> order[i] != order[j]) &&
      (forall k :: k in docs <==> k in order) &&
      (forall k :: k in docs ==> docs[k].id == k)
    }

    constructor ()
      ensures Valid() && docs == map[] && order == []
    {
      docs := map[];
      order := [];
    }

    /**
     * `get_products_service`: the caller's products in cursor order.
     * `findFault` is a failure of the query itself; `decodeMessage` is the
     * driver's text when a document does not deserialise.
     */
    method GetProducts(idText: string, findFault: Option<string>, decodeMessage: string) returns (r: Result<seq<Product>, ServiceError>)
      requires Valid()
      ensures ParseObjectId(idText).None? ==> r == Err(InvalidId(InvalidIdMessage))
      ensures ParseObjectId(idText).Some? && findFault.Some? ==> r == Err(DatabaseError(findFault.value))
      ensures ParseObjectId(idText).Some? && findFault.None? ==>
        AllStored(docs, order) &&
        var listed := DecodeAll(OwnedDocs(docs, order, ParseObjectId(idText).value));
        r == if listed.Some? then Ok(listed.value) else Err(DatabaseError(decodeMessage))
    {
      var owner := ParseObjectId(idText);
      if owner.None? {
        return Err(InvalidId(InvalidIdMessage));
      }
      if findFault.Some? {
        return Err(DatabaseError(findFault.value));
      }
      assert AllStored(docs, order);
      var listed := ListOwned(docs, order, owner.value);
      r := if listed.Some? then Ok(listed.value) else Err(DatabaseError(decodeMessage));
    }

    /**
     * `create_product_service`. `generatedSku` is what `generate_random_sku`
     * returns, `now` the clock, `newId` the `_id` the insert is given and
     * `fault` the insert's failure (None when it succeeds).
     */
    method CreateProduct(dto: ProductDTO, idText: string, generatedSku: string, now: Timestamp, newId: ObjectId, fault: Option<WriteFault>)
      returns (r: Result<Product, ServiceError>)
      requires Valid()
      requires newId !in docs
      modifies this
      ensures Valid()
      ensures ParseObjectId(idText).None? ==> r == Err(InvalidId(InvalidIdMessage)) && docs == old(docs) && order == old(order)
      ensures ParseObjectId(idText).Some? && fault.Some? ==>
        r == Err(FromWriteFault(fault.value)) && docs == old(docs) && order == old(order)
      ensures ParseObjectId(idText).Some? && fault.None? ==>
        var p := NewProduct(dto, ParseObjectId(idText).value, generatedSku, now).(id := Some(newId));
        r == Ok(p) && docs == old(docs)[newId := Encode(p)] && order == old(order) + [newId]
    {
      var owner := ParseObjectId(idText);
      if owner.None? {
        return Err(InvalidId(InvalidIdMessage));
      }
      var product := NewProduct(dto, owner.value, generatedSku, now);
      if fault.Some? {
        return Err(FromWriteFault(fault.value));
      }
      product := product.(id := Some(newId));
      docs := docs[newId := Encode(product)];
      order := order + [newId];
      r := Ok(product);
    }

    /**
     * `update_product_service`. `nowText` is the clock in RFC 3339, `fault`
     * the failure of `update_one`, `decodeMessage` the driver's text when the
     * re-read document does not deserialise.
     */
    method UpdateProduct(productIdText: string, dto: UpdateProductDTO, userIdText: string, nowText: string,
                         fault: Option<WriteFault>, decodeMessage: string)
      returns (r: Result<Product, ServiceError>)
      requires Valid()
      modifies this
      ensures Valid() && order == old(order)
      ensures ParseObjectId(productIdText).None? ==>
        r == Err(InvalidId(InvalidProductIdMessage)) && docs == old(docs)
      ensures ParseObjectId(productIdText).Some? && ParseObjectId(userIdText).None? ==>
        r == Err(InvalidId(InvalidUserIdMessage)) && docs == old(docs)
      ensures ParseObjectId(productIdText).Some? && ParseObjectId(userIdText).Some? ==>
        var id, owner := ParseObjectId(productIdText).value, ParseObjectId(userIdText).value;
        if NoUpdateFields(dto) then r == Err(BadRequest(NothingToUpdateMessage)) && docs == old(docs)
        else if fault.Some? then r == Err(FromWriteFault(fault.value)) && docs == old(docs)
        else if !OwnedBy(old(docs), id, owner) then r == Err(NotFound(NotOwnedMessage)) && docs == old(docs)
        else
          docs == old(docs)[id := Patched(old(docs)[id], dto, nowText)] &&
          r == if Decode(docs[id]).Some? then Ok(Decode(docs[id]).value) else Err(DatabaseError(decodeMessage))
    {
      var id := ParseObjectId(productIdText);
      if id.None? {
        return Err(InvalidId(InvalidProductIdMessage));
      }
      var owner := ParseObjectId(userIdText);
      if owner.None? {
        return Err(InvalidId(InvalidUserIdMessage));
      }
      var entries := BuildProductUpdateDoc(dto);
      if entries == [] {
        return Err(BadRequest(NothingToUpdateMessage));
      }
      entries := entries + [SetUpdatedAt(nowText)];
      if fault.Some? {
        return Err(FromWriteFault(fault.value));
      }
      if !OwnedBy(docs, id.value, owner.value) {
        return Err(NotFound(NotOwnedMessage));
      }
      PatchedBySet(docs[id.value], dto, nowText);
      docs := docs[id.value := ApplySet(docs[id.value], entries)];
      var back := Decode(docs[id.value]);
      if back.None? {
        return Err(DatabaseError(decodeMessage));
      }
      r := Ok(back.value);
    }
  }

  /** After a create, the owner's listing is the old one followed by the new product. */
  lemma CreatedProductListedLast(docs: map<ObjectId, ProductDoc>, order: seq<ObjectId>, owner: ObjectId, p: Product)
    requires AllStored(docs, order) && p.id.Some? && p.id.value !in order && p.user_id == owner
    ensures AllStored(docs[p.id.value := Encode(p)], order + [p.id.value])
    ensures OwnedDocs(docs[p.id.value := Encode(p)], order + [p.id.value], owner) == OwnedDocs(docs, order, owner) + [Encode(p)]
    ensures DecodeAll(OwnedDocs(docs, order, owner)).Some? ==>
      DecodeAll(OwnedDocs(docs[p.id.value := Encode(p)], order + [p.id.value], owner))
        == Some(DecodeAll(OwnedDocs(docs, order, owner)).value + [p])
  {
    var k := p.id.value;
    var docs' := docs[k := Encode(p)];
    OwnedDocsInsertElsewhere(docs, order, owner, k, Encode(p));
    assert (order + [k])[..|order + [k]| - 1] == order;
    DecodeEncode(p);
  }

  /** An update leaves every other owner's listing exactly as it was. */
  lemma {:induction false} UpdateKeepsOtherListings(docs: map<ObjectId, ProductDoc>, ids: seq<ObjectId>, id: ObjectId, d: ProductDoc, other: ObjectId)
    requires AllStored(docs, ids) && id in docs
    requires d.user_id == docs[id].user_id && other != d.user_id
    ensures AllStored(docs[id := d], ids)
    ensures OwnedDocs(docs[id := d], ids, other) == OwnedDocs(docs, ids, other)
  {
    if ids != [] {
      UpdateKeepsOtherListings(docs, ids[..|ids| - 1], id, d, other);
    }
  }

  /** Once one of an owner's products has been updated, listing that owner's products fails. */
  lemma ListingFailsAfterUpdate(docs: map<ObjectId, ProductDoc>, ids: seq<ObjectId>, i: nat, dto: UpdateProductDTO, nowText: string)
    requires AllStored(docs, ids) && i < |ids|
    ensures AllStored(docs[ids[i] := Patched(docs[ids[i]], dto, nowText)], ids)
    ensures DecodeAll(OwnedDocs(docs[ids[i] := Patched(docs[ids[i]], dto, nowText)], ids, docs[ids[i]].user_id)).None?
  {
    var docs' := docs[ids[i] := Patched(docs[ids[i]], dto, nowText)];
    assert AllStored(docs', ids);
    ListingFailsOnUnreadable(docs', ids, docs[ids[i]].user_id, i);
  }
}
