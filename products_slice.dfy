/** The products slice of the store: a list of product records and its three reducers. */
module ProductsSlice {
  import opened Common
  import opened Json
  import opened ItemList

  /** A product record; `discount` is present only when the extractor supplied one. */
  datatype Product = Product(
    id: string,
    name: string,
    quantity: real,
    unitPrice: real,
    tax: real,
    priceWithTax: real,
    discount: Option<JsNumber>)

  function ProductId(p: Product): string {
    p.id
  }

  /** The slice state; each reducer updates `items` in place. */
  class ProductsState {
    var items: seq<Product>

    /** `initialState`. */
    constructor ()
      ensures items == []
    {
      items := [];
    }

    /** `setProducts`: the payload becomes the list. */
    method SetProducts(payload: seq<Product>)
      modifies this
      ensures items == payload
    {
      items := payload;
    }

    /** `addProduct`: the payload is pushed at the end. */
    method AddProduct(payload: Product)
      modifies this
      ensures items == old(items) + [payload]
      ensures |items| == |old(items)| + 1 && items[..|old(items)|] == old(items)
    {
      items := items + [payload];
    }

    /** `updateProduct`: the first product with the payload's id is replaced; with none, nothing changes. */
    method UpdateProduct(payload: Product)
      modifies this
      ensures items == ReplaceFirst(old(items), payload, ProductId)
      ensures |items| == |old(items)|
      ensures (forall j :: 0 <= j < |old(items)| ==> old(items)[j].id != payload.id) ==> items == old(items)
    {
      var index := FindIndex(items, payload.id, ProductId);
      if index != -1 {
        items := items[index := payload];
      } else {
        ReplaceWithoutMatch(items, payload, ProductId);
      }
    }
  }
}
