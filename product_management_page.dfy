/**
 * The admin product editor: the fields it starts from, the reset when the product
 * arrives, and the update form, which carries only the fields that are set.
 */
module ProductManagementPage {
  import opened Storefront
  import opened FormDataModel
  import Decimal

  /** The product fields the editor shows. */
  datatype ShownFields = ShownFields(
    photo: string,
    category: string,
    name: string,
    stock: int,
    price: int)

  /** The loaded product's fields, or empty strings and zeros while nothing is loaded. */
  function ShownFieldsOf(data: Option<Product>): (r: ShownFields)
    ensures data.None? ==> r == ShownFields("", "", "", 0, 0)
    ensures data.Some? ==>
      && r.photo == data.value.photo && r.category == data.value.category
      && r.name == data.value.name && r.stock == data.value.stock && r.price == data.value.price
  {
    match data
    case None => ShownFields("", "", "", 0, 0)
    case Some(p) => ShownFields(p.photo, p.category, p.name, p.stock, p.price)
  }

  /** The edit fields of the product editor. */
  class ProductEditor {
    var nameUpdate: string
    var priceUpdate: int
    var stockUpdate: int
    var categoryUpdate: string
    var photoFile: Option<File>

    /** The edit fields start from what the first render shows, with no new photo. */
    constructor (data: Option<Product>)
      ensures nameUpdate == ShownFieldsOf(data).name && priceUpdate == ShownFieldsOf(data).price
      ensures stockUpdate == ShownFieldsOf(data).stock && categoryUpdate == ShownFieldsOf(data).category
      ensures photoFile.None?
    {
      var shown := ShownFieldsOf(data);
      nameUpdate := shown.name;
      priceUpdate := shown.price;
      stockUpdate := shown.stock;
      categoryUpdate := shown.category;
      photoFile := None;
    }

    /**
     * The load effect: once the product arrives its name, price, stock and category
     * overwrite the edit fields; the chosen photo is kept. Without data nothing changes.
     */
    method DataChanged(data: Option<Product>)
      modifies this
      ensures data.None? ==>
        && nameUpdate == old(nameUpdate) && priceUpdate == old(priceUpdate)
        && stockUpdate == old(stockUpdate) && categoryUpdate == old(categoryUpdate)
      ensures data.Some? ==>
        && nameUpdate == data.value.name && priceUpdate == data.value.price
        && stockUpdate == data.value.stock && categoryUpdate == data.value.category
      ensures photoFile == old(photoFile)
    {
      if data.Some? {
        nameUpdate := data.value.name;
        priceUpdate := data.value.price;
        stockUpdate := data.value.stock;
        categoryUpdate := data.value.category;
      }
    }

    /** A new photo was read from the file input. */
    method PhotoChosen(f: File)
      modifies this
      ensures photoFile == Some(f)
      ensures nameUpdate == old(nameUpdate) && priceUpdate == old(priceUpdate)
      ensures stockUpdate == old(stockUpdate) && categoryUpdate == old(categoryUpdate)
    {
      photoFile := Some(f);
    }

    /**
     * The update form: name only if non-empty, price only if non-zero, stock
     * always (even zero), photo only if one was chosen, category only if non-empty,
     * and no other key.
     */
    method Submit() returns (sent: map<string, FormValue>)
      ensures sent.Keys <= {"name", "price", "stock", "photo", "category"}
      ensures "name" in sent <==> nameUpdate != ""
      ensures "price" in sent <==> priceUpdate != 0
      ensures "stock" in sent
      ensures "photo" in sent <==> photoFile.Some?
      ensures "category" in sent <==> categoryUpdate != ""
      ensures "name" in sent ==> sent["name"] == Text(nameUpdate)
      ensures "price" in sent ==> sent["price"] == Text(Decimal.DecimalString(priceUpdate))
      ensures sent["stock"] == Text(Decimal.DecimalString(stockUpdate))
      ensures "photo" in sent ==> sent["photo"] == Blob(photoFile.value)
      ensures "category" in sent ==> sent["category"] == Text(categoryUpdate)
    {
      var formData := new FormData();
      if nameUpdate != "" {
        formData.Set("name", Text(nameUpdate));
      }
      if priceUpdate != 0 {
        formData.Set("price", Text(Decimal.DecimalString(priceUpdate)));
      }
      formData.Set("stock", Text(Decimal.DecimalString(stockUpdate)));
      if photoFile.Some? {
        formData.Set("photo", Blob(photoFile.value));
      }
      if categoryUpdate != "" {
        formData.Set("category", Text(categoryUpdate));
      }
      sent := formData.entries;
    }
  }
}
