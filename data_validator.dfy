/** `validateAndTransformData` and its three record builders: from the untyped object the extractor
    returned to typed invoice, product and customer records. The UUID of each record and today's
    date are supplied by the caller. */
module DataValidator {
  import opened Common
  import opened Json
  import opened Strings
  import opened CustomersSlice
  import opened ProductsSlice

  datatype Status = Complete | Incomplete

  /** The invoice record as the validator builds it. `date` is copied from the raw data when truthy,
      whatever its JavaScript type. */
  datatype Invoice = Invoice(
    id: string,
    serialNumber: string,
    customerName: string,
    productName: string,
    quantity: real,
    tax: real,
    totalAmount: real,
    date: Raw,
    status: Status,
    missingFields: Option<seq<string>>)

  /** The records `validateAndTransformData` returns; each is present or not. */
  datatype Validated = Validated(invoice: Option<Invoice>, product: Option<Product>, customer: Option<Customer>)

  /** The UUIDs `crypto.randomUUID()` hands out for one call, one per record kind. */
  datatype RecordIds = RecordIds(invoiceId: string, productId: string, customerId: string)

  const RequiredFields: seq<string> :=
    ["serialNumber", "customerName", "productName", "quantity", "tax", "totalAmount"]
  const NoValidDataMessage := "No valid data found in the extracted content"

  /** The required fields whose raw value is falsy, in the order of `RequiredFields`. */
  function MissingFields(data: Raw): (m: seq<string>)
    ensures forall f :: f in m <==> f in RequiredFields && !Truthy(Get(data, f))
    ensures IsSubsequence(m, RequiredFields)
  {
    Filter(RequiredFields, f => !Truthy(Get(data, f)))
  }

  lemma NoneMissing(data: Raw)
    ensures MissingFields(data) == [] <==> forall f :: f in RequiredFields ==> Truthy(Get(data, f))
  {
    var m := MissingFields(data);
    if m != [] {
      assert m[0] in m;
    }
  }

  /** `validateInvoice`. Completeness is judged on the raw values, before any coercion. */
  function ValidateInvoice(data: Raw, id: string, today: string, c: Coercion): (inv: Invoice)
    ensures inv.id == id
    ensures inv.status == Incomplete <==> inv.missingFields.Some?
    ensures inv.missingFields.Some? ==> inv.missingFields.value == MissingFields(data) != []
    ensures inv.status == Complete <==> forall f :: f in RequiredFields ==> Truthy(Get(data, f))
    ensures inv.serialNumber == TextOrEmpty(Get(data, "serialNumber"), c)
    ensures inv.customerName == TextOrEmpty(Get(data, "customerName"), c)
    ensures inv.productName == TextOrEmpty(Get(data, "productName"), c)
    ensures inv.quantity == NumberOrZero(Get(data, "quantity"), c)
    ensures inv.tax == NumberOrZero(Get(data, "tax"), c)
    ensures inv.totalAmount == NumberOrZero(Get(data, "totalAmount"), c)
    ensures inv.date == if Truthy(Get(data, "date")) then Get(data, "date") else Str(today)
  {
    var missing := MissingFields(data);
    NoneMissing(data);
    Invoice(
      id,
      TextOrEmpty(Get(data, "serialNumber"), c),
      TextOrEmpty(Get(data, "customerName"), c),
      TextOrEmpty(Get(data, "productName"), c),
      NumberOrZero(Get(data, "quantity"), c),
      NumberOrZero(Get(data, "tax"), c),
      NumberOrZero(Get(data, "totalAmount"), c),
      if Truthy(Get(data, "date")) then Get(data, "date") else Str(today),
      if |missing| > 0 then Incomplete else Complete,
      if |missing| > 0 then Some(missing) else None)
  }

  /** `validateProduct`: no completeness tracking; `discount` is kept only when the raw value is defined. */
  function ValidateProduct(data: Raw, id: string, c: Coercion): (p: Product)
    ensures p.id == id
    ensures p.name == TextOrEmpty(Get(data, "name"), c)
    ensures p.quantity == NumberOrZero(Get(data, "quantity"), c)
    ensures p.unitPrice == NumberOrZero(Get(data, "unitPrice"), c)
    ensures p.tax == NumberOrZero(Get(data, "tax"), c)
    ensures p.priceWithTax == NumberOrZero(Get(data, "priceWithTax"), c)
    ensures p.discount.None? <==> Get(data, "discount") == Undefined
    ensures p.discount.Some? ==> p.discount.value == ToNumber(Get(data, "discount"), c)
  {
    Product(
      id,
      TextOrEmpty(Get(data, "name"), c),
      NumberOrZero(Get(data, "quantity"), c),
      NumberOrZero(Get(data, "unitPrice"), c),
      NumberOrZero(Get(data, "tax"), c),
      NumberOrZero(Get(data, "priceWithTax"), c),
      if Get(data, "discount") != Undefined then Some(ToNumber(Get(data, "discount"), c)) else None)
  }

  /** `validateCustomer`: the optional fields are copied unchanged, `undefined` included. */
  function ValidateCustomer(data: Raw, id: string, c: Coercion): (cu: Customer)
    ensures cu.id == id
    ensures cu.name == TextOrEmpty(Get(data, "name"), c)
    ensures cu.phoneNumber == TextOrEmpty(Get(data, "phoneNumber"), c)
    ensures cu.totalPurchaseAmount == NumberOrZero(Get(data, "totalPurchaseAmount"), c)
    ensures cu.email == Get(data, "email")
    ensures cu.address == Get(data, "address")
    ensures cu.lastPurchaseDate == Get(data, "lastPurchaseDate")
  {
    Customer(
      id,
      TextOrEmpty(Get(data, "name"), c),
      TextOrEmpty(Get(data, "phoneNumber"), c),
      NumberOrZero(Get(data, "totalPurchaseAmount"), c),
      Get(data, "email"),
      Get(data, "address"),
      Get(data, "lastPurchaseDate"))
  }

  /** Reading a property of `null` or `undefined` throws a `TypeError`. */
  function NullReadMessage(v: Raw): string {
    "Cannot read properties of " + (if v.Null? then "null" else "undefined") + " (reading 'invoice')"
  }

  /** `validateAndTransformData`. */
  function ValidateAndTransform(raw: Raw, ids: RecordIds, today: string, c: Coercion): (r: Result<Validated>)
    ensures raw.Null? || raw.Undefined? ==> r == Err(OtherError(NullReadMessage(raw)))
    ensures !(raw.Null? || raw.Undefined?) ==>
      (r.Err? <==> !Truthy(Get(raw, "invoice")) && !Truthy(Get(raw, "product")) && !Truthy(Get(raw, "customer")))
    ensures r.Err? && !(raw.Null? || raw.Undefined?) ==> r.error == ValidationError(NoValidDataMessage)
    ensures r.Ok? ==>
      (r.value.invoice.Some? <==> Truthy(Get(raw, "invoice"))) &&
      (r.value.product.Some? <==> Truthy(Get(raw, "product"))) &&
      (r.value.customer.Some? <==> Truthy(Get(raw, "customer")))
    ensures r.Ok? && r.value.invoice.Some? ==>
      r.value.invoice.value == ValidateInvoice(Get(raw, "invoice"), ids.invoiceId, today, c)
    ensures r.Ok? && r.value.product.Some? ==>
      r.value.product.value == ValidateProduct(Get(raw, "product"), ids.productId, c)
    ensures r.Ok? && r.value.customer.Some? ==>
      r.value.customer.value == ValidateCustomer(Get(raw, "customer"), ids.customerId, c)
  {
    if raw.Null? || raw.Undefined? then Err(OtherError(NullReadMessage(raw)))
    else
      var inv, prod, cust := Get(raw, "invoice"), Get(raw, "product"), Get(raw, "customer");
      var result := Validated(
        if Truthy(inv) then Some(ValidateInvoice(inv, ids.invoiceId, today, c)) else None,
        if Truthy(prod) then Some(ValidateProduct(prod, ids.productId, c)) else None,
        if Truthy(cust) then Some(ValidateCustomer(cust, ids.customerId, c)) else None);
      if result.invoice.None? && result.product.None? && result.customer.None? then
        Err(ValidationError(NoValidDataMessage))
      else Ok(result)
  }

  /** A truthy `quantity` that does not coerce to a number is not reported missing, yet is stored as 0. */
  lemma QuantityJudgedBeforeCoercion(data: Raw, id: string, today: string, c: Coercion, s: string)
    requires Get(data, "quantity") == Str(s) && s != "" && c.parseNumber(s) == NaN
    ensures var inv := ValidateInvoice(data, id, today, c);
            "quantity" !in MissingFields(data) && inv.quantity == 0.0
  {
  }

  /** An invoice whose only falsy required field is `tax` is incomplete with exactly `["tax"]` missing. */
  lemma OnlyTaxMissing(data: Raw, id: string, today: string, c: Coercion)
    requires forall f :: f in RequiredFields && f != "tax" ==> Truthy(Get(data, f))
    requires !Truthy(Get(data, "tax"))
    ensures ValidateInvoice(data, id, today, c).status == Incomplete
    ensures ValidateInvoice(data, id, today, c).missingFields == Some(["tax"])
  {
    MissingOnlyTax(data);
  }

  lemma MissingOnlyTax(data: Raw)
    requires forall f :: f in RequiredFields && f != "tax" ==> Truthy(Get(data, f))
    requires !Truthy(Get(data, "tax"))
    ensures MissingFields(data) == ["tax"]
  {
    var m := MissingFields(data);
    assert "tax" in m;
    forall f | f in m ensures f == "tax" {
    }
    RequiredFieldsDistinct();
    SingletonSubsequence(m, RequiredFields, "tax");
  }

  /** No required field is listed twice. */
  lemma RequiredFieldsDistinct()
    ensures forall i, j :: 0 <= i < j < |RequiredFields| ==> RequiredFields[i] != RequiredFields[j]
  {
    var r := RequiredFields;
    assert r[0][0] == 's' && r[1][0] == 'c' && r[2][0] == 'p' && r[3][0] == 'q';
    assert r[4][0] == 't' && r[5][0] == 't' && |r[4]| == 3 && |r[5]| == 11;
  }

  /** A subsequence of a list without repeats whose elements all equal `x`, and which contains `x`, is `[x]`. */
  lemma {:induction false} SingletonSubsequence(m: seq<string>, all: seq<string>, x: string)
    requires IsSubsequence(m, all)
    requires x in m && forall f :: f in m ==> f == x
    requires forall i, j :: 0 <= i < j < |all| ==> all[i] != all[j]
    ensures m == [x]
    decreases |all|
  {
    if m[0] == all[0] && IsSubsequence(m[1..], all[1..]) {
      assert m[0] in m;
      if |m| > 1 {
        assert m[1] in m[1..] && m[1] in m;
        SubsequenceMember(m[1..], all[1..], m[1]);
        assert false;
      }
    } else {
      SingletonSubsequence(m, all[1..], x);
    }
  }

  lemma {:induction false} SubsequenceMember(m: seq<string>, all: seq<string>, x: string)
    requires IsSubsequence(m, all) && x in m
    ensures x in all
    decreases |all|
  {
    if m[0] == all[0] && IsSubsequence(m[1..], all[1..]) {
      if x != m[0] {
        SubsequenceMember(m[1..], all[1..], x);
      }
    } else {
      SubsequenceMember(m, all[1..], x);
    }
  }
}
