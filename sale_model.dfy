/**
 * The backend crate's sale request bodies and their validator rules. Only
 * validation exists in the source; money amounts (`f64`) are real numbers
 * compared against their bounds.
 */
module SaleModels {
  import opened Wrappers
  import opened ObjectIds
  import AE = ApiErrors

  /** Rust `i32` */
  newtype I32 = x: int | -0x8000_0000 <= x < 0x8000_0000

  /** The values the `status` field of a stored sale is documented to take. */
  const SaleStatuses: set<string> := {"paid", "partial", "unpaid"}

  const MaxNotesLength := 255

  datatype SaleItemDTO = SaleItemDTO(
    product_id: ObjectId,
    quantity: I32,
    price: real,
    discount: Option<real>)

  datatype SaleDTO = SaleDTO(
    customer_id: Option<ObjectId>,
    items: seq<SaleItemDTO>,
    payment_method_id: Option<ObjectId>,
    paid_amount: real,
    notes: Option<string>)

  /** The item rules: quantity at least 1, price at least 100, no negative discount. */
  predicate ItemValid(it: SaleItemDTO) {
    it.quantity >= 1 && it.price >= 100.0 && (it.discount.None? || it.discount.value >= 0.0)
  }

  /** `SaleItemDTO::validate()`; an absent discount passes. */
  function ValidateSaleItem(it: SaleItemDTO): (errs: AE.ValidationErrors)
    ensures "quantity" in AE.FieldNames(errs) <==> it.quantity < 1
    ensures "price" in AE.FieldNames(errs) <==> it.price < 100.0
    ensures "discount" in AE.FieldNames(errs) <==> it.discount.Some? && it.discount.value < 0.0
    ensures AE.FieldNames(errs) <= {"quantity", "price", "discount"}
    ensures errs == [] <==> ItemValid(it)
  {
    var a := AE.Rule(it.quantity >= 1, "quantity", "range", "Jumlah item minimal 1");
    var b := AE.Rule(it.price >= 100.0, "price", "range", "Harga minimal 100");
    var c := AE.Rule(it.discount.None? || it.discount.value >= 0.0, "discount", "range", "Diskon tidak boleh negatif");
    AE.FieldNamesConcat(a, b);
    AE.FieldNamesConcat(a + b, c);
    a + b + c
  }

  /** The errors of the item at `index` of the item list. */
  datatype ItemErrors = ItemErrors(index: nat, errors: AE.ValidationErrors)

  /** The nested validation of every item, failing items in list order. */
  function ItemFailures(items: seq<SaleItemDTO>): (r: seq<ItemErrors>)
    ensures forall k :: 0 <= k < |r| ==>
      r[k].index < |items| && !ItemValid(items[r[k].index]) && r[k].errors == ValidateSaleItem(items[r[k].index])
    ensures forall k, l :: 0 <= k < l < |r| ==> r[k].index < r[l].index
    ensures r == [] <==> forall i :: 0 <= i < |items| ==> ItemValid(items[i])
  {
    if items == [] then []
    else
      var n := |items| - 1;
      var front := ItemFailures(items[..n]);
      assert forall i :: 0 <= i < n ==> items[..n][i] == items[i];
      var last := if ItemValid(items[n]) then [] else [ItemErrors(n, ValidateSaleItem(items[n]))];
      assert forall k :: 0 <= k < |front| ==> (front + last)[k] == front[k];
      assert last != [] ==> (front + last)[|front|] == last[0];
      front + last
  }

  /** Every failing item is reported, under its own index. */
  lemma {:induction false} ItemFailuresComplete(items: seq<SaleItemDTO>, i: nat)
    requires i < |items| && !ItemValid(items[i])
    ensures exists k :: 0 <= k < |ItemFailures(items)| && ItemFailures(items)[k].index == i
  {
    var n := |items| - 1;
    var front := ItemFailures(items[..n]);
    var last: seq<ItemErrors> := if ItemValid(items[n]) then [] else [ItemErrors(n, ValidateSaleItem(items[n]))];
    assert ItemFailures(items) == front + last;
    if i == n {
      assert (front + last)[|front|].index == i;
    } else {
      assert items[..n][i] == items[i];
      ItemFailuresComplete(items[..n], i);
      var k :| 0 <= k < |front| && front[k].index == i;
      assert (front + last)[k] == front[k];
    }
  }

  /** The outcome of `SaleDTO::validate()`: its own fields' errors and the failing items. */
  datatype SaleValidation = SaleValidation(fields: AE.ValidationErrors, items: seq<ItemErrors>)

  /** `SaleDTO::validate()` */
  function ValidateSale(dto: SaleDTO): (v: SaleValidation)
    ensures "items" in AE.FieldNames(v.fields) <==> |dto.items| == 0
    ensures "paid_amount" in AE.FieldNames(v.fields) <==> dto.paid_amount < 0.0
    ensures "notes" in AE.FieldNames(v.fields) <==> dto.notes.Some? && |dto.notes.value| > MaxNotesLength
    ensures AE.FieldNames(v.fields) <= {"items", "paid_amount", "notes"}
    ensures v.items == ItemFailures(dto.items)
  {
    var a := AE.Rule(|dto.items| >= 1, "items", "length", "Daftar item tidak boleh kosong");
    var b := AE.Rule(dto.paid_amount >= 0.0, "paid_amount", "range", "Jumlah bayar tidak boleh negatif");
    var c := AE.Rule(dto.notes.None? || |dto.notes.value| <= MaxNotesLength, "notes", "length", "Catatan maksimal 255 karakter");
    AE.FieldNamesConcat(a, b);
    AE.FieldNamesConcat(a + b, c);
    SaleValidation(a + b + c, ItemFailures(dto.items))
  }

  /**
   * A sale body passes validation exactly when it has at least one item,
   * every item has quantity at least 1, price at least 100 and no negative
   * discount, the paid amount is not negative and the notes, if any, are at
   * most 255 characters long.
   */
  lemma ValidSaleIff(dto: SaleDTO)
    ensures ValidateSale(dto) == SaleValidation([], [])
        <==> && |dto.items| >= 1
             && (forall i :: 0 <= i < |dto.items| ==>
                   dto.items[i].quantity >= 1 && dto.items[i].price >= 100.0
                   && (dto.items[i].discount.Some? ==> dto.items[i].discount.value >= 0.0))
             && dto.paid_amount >= 0.0
             && (dto.notes.Some? ==> |dto.notes.value| <= MaxNotesLength)
  {
    var v := ValidateSale(dto);
    if v.fields != [] {
      assert v.fields[0].field in AE.FieldNames(v.fields);
    }
  }
}
