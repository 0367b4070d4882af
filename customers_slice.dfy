/** The customers slice of the store: a list of customer records and its three reducers. */
module CustomersSlice {
  import opened Json
  import opened ItemList

  /** A customer record. The optional fields hold whatever the extractor returned for them. */
  datatype Customer = Customer(
    id: string,
    name: string,
    phoneNumber: string,
    totalPurchaseAmount: real,
    email: Raw,
    address: Raw,
    lastPurchaseDate: Raw)

  function CustomerId(c: Customer): string {
    c.id
  }

  /** The slice state; each reducer updates `items` in place. */
  class CustomersState {
    var items: seq<Customer>

    /** `initialState`. */
    constructor ()
      ensures items == []
    {
      items := [];
    }

    /** `setCustomers`: the payload becomes the list. */
    method SetCustomers(payload: seq<Customer>)
      modifies this
      ensures items == payload
    {
      items := payload;
    }

    /** `addCustomer`: the payload is pushed at the end. */
    method AddCustomer(payload: Customer)
      modifies this
      ensures items == old(items) + [payload]
      ensures |items| == |old(items)| + 1 && items[..|old(items)|] == old(items)
    {
      items := items + [payload];
    }

    /** `updateCustomer`: the first customer with the payload's id is replaced; with none, nothing changes. */
    method UpdateCustomer(payload: Customer)
      modifies this
      ensures items == ReplaceFirst(old(items), payload, CustomerId)
      ensures |items| == |old(items)|
      ensures (forall j :: 0 <= j < |old(items)| ==> old(items)[j].id != payload.id) ==> items == old(items)
    {
      var index := FindIndex(items, payload.id, CustomerId);
      if index != -1 {
        items := items[index := payload];
      } else {
        ReplaceWithoutMatch(items, payload, CustomerId);
      }
    }
  }
}
