/**
 * The admin "New Product" form: its initial fields, the guard that keeps an
 * incomplete form from being sent, and the multipart form it sends.
 */
module NewProductPage {
  import opened Storefront
  import opened FormDataModel
  import Decimal

  datatype NewProductFields = NewProductFields(
    name: string,
    category: string,
    price: int,
    stock: int,
    photo: Option<File>)

  /** The form as first shown: no name, no category, price 1000, stock 1, no photo. */
  function InitialFields(): (f: NewProductFields)
    ensures f.name == "" && f.category == "" && f.photo.None?
    ensures f.price == 1000 && f.stock == 1
  {
    NewProductFields("", "", 1000, 1, None)
  }

  /**
   * The submit guard: a name, a non-zero price, a stock of at least zero, a
   * category and a chosen photo. Only "non-zero" is asked of the price.
   */
  predicate CanSubmit(f: NewProductFields)
  {
    f.name != "" && f.price != 0 && f.stock >= 0 && f.category != "" && f.photo.Some?
  }

  /** The form as first shown cannot be sent: it has neither a name nor a photo. */
  lemma InitialFieldsCannotSubmit()
    ensures !CanSubmit(InitialFields())
  {
  }

  /**
   * Submitting: an incomplete form sends nothing; a complete one sends exactly the
   * name, price, stock, photo and category, with price and stock in decimal.
   */
  method Submit(f: NewProductFields) returns (sent: Option<map<string, FormValue>>)
    ensures sent.None? <==>
      f.name == "" || f.price == 0 || f.stock < 0 || f.category == "" || f.photo.None?
    ensures sent.Some? ==>
      && sent.value.Keys == {"name", "price", "stock", "photo", "category"}
      && sent.value["name"] == Text(f.name)
      && sent.value["price"] == Text(Decimal.DecimalString(f.price))
      && sent.value["stock"] == Text(Decimal.DecimalString(f.stock))
      && sent.value["photo"] == Blob(f.photo.value)
      && sent.value["category"] == Text(f.category)
  {
    if !CanSubmit(f) {
      return None;
    }
    var formData := new FormData();
    formData.Set("name", Text(f.name));
    formData.Set("price", Text(Decimal.DecimalString(f.price)));
    formData.Set("stock", Text(Decimal.DecimalString(f.stock)));
    formData.Set("photo", Blob(f.photo.value));
    formData.Set("category", Text(f.category));
    sent := Some(formData.entries);
  }
}
