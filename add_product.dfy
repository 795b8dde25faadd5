/** The add-product page: the form's validation rules, the product built from
    a submitted form, the duplicate-barcode guard, and the barcode lookup that
    prefills the name and description. */
module AddProduct {
  import opened Types
  import Catalog

  /** The form's values after the resolver has coerced the numeric inputs.
      `ean` and `description` are optional in the schema. */
  datatype FormValues = FormValues(
    barcode: string,
    ean: Option<string>,
    name: string,
    description: Option<string>,
    mrp: real,
    costPriceCode: string,
    stock: real,
    lowInventoryFactor: real)

  /** The fields that carry a validation rule. */
  datatype Field = BarcodeField | NameField | MrpField | StockField | ThresholdField

  /** What the prefill lookup returns. */
  datatype PrefillDetails = PrefillDetails(productName: string, description: string)

  datatype SubmitOutcome = Invalid(errors: set<Field>) | AlreadyExists | Added(product: Product)

  const DefaultValues := FormValues("", Some(""), "", Some(""), 0.0, "", 0.0, 0.0)

  const BarcodeRequired := "Please enter a barcode first."

  /** The schema's message for an empty barcode. */
  const BarcodeMissing := "Barcode is required"

  predicate IsInteger(x: real)
  {
    x.Floor as real == x
  }

  /** The fields whose rule `v` breaks. */
  function SchemaErrors(v: FormValues): set<Field>
  {
    (if |v.barcode| < 1 then {BarcodeField} else {}) +
    (if |v.name| < 2 then {NameField} else {}) +
    (if v.mrp < 0.0 then {MrpField} else {}) +
    (if !IsInteger(v.stock) || v.stock < 0.0 then {StockField} else {}) +
    (if !IsInteger(v.lowInventoryFactor) || v.lowInventoryFactor < 0.0 then {ThresholdField} else {})
  }

  predicate SchemaValid(v: FormValues)
  {
    SchemaErrors(v) == {}
  }

  /** A form passes exactly when the barcode is non-empty, the name has at
      least two characters, the MRP is not negative, and the stock and the
      threshold are whole numbers that are not negative. */
  lemma SchemaRules(v: FormValues)
    ensures SchemaValid(v) <==>
              |v.barcode| >= 1 && |v.name| >= 2 && v.mrp >= 0.0 &&
              IsInteger(v.stock) && v.stock >= 0.0 &&
              IsInteger(v.lowInventoryFactor) && v.lowInventoryFactor >= 0.0
  {
    if !(|v.barcode| >= 1) { assert BarcodeField in SchemaErrors(v); }
    if !(|v.name| >= 2) { assert NameField in SchemaErrors(v); }
    if !(v.mrp >= 0.0) { assert MrpField in SchemaErrors(v); }
    if !(IsInteger(v.stock) && v.stock >= 0.0) { assert StockField in SchemaErrors(v); }
    if !(IsInteger(v.lowInventoryFactor) && v.lowInventoryFactor >= 0.0) {
      assert ThresholdField in SchemaErrors(v);
    }
  }

  /** The empty form is refused for its barcode and its name only. */
  lemma DefaultValuesRejected()
    ensures SchemaErrors(DefaultValues) == {BarcodeField, NameField}
  {
  }

  /** JavaScript's `a || b` on an optional string. */
  function OrElse(a: Option<string>, b: string): string
  {
    if a.Some? && a.value != "" then a.value else b
  }

  /** The product `onSubmit` writes for a validated form. */
  function BuildProduct(v: FormValues): (p: Product)
    requires SchemaValid(v)
    ensures p.id == v.barcode && p.barcode == v.barcode
    ensures p.ean == (if v.ean.None? || v.ean == Some("") then v.barcode else v.ean.value)
    ensures p.description == (if v.description.Some? then v.description.value else "")
    ensures p.name == v.name && p.mrp == v.mrp && p.costPriceCode == v.costPriceCode
    ensures p.stock as real == v.stock && p.lowInventoryFactor as real == v.lowInventoryFactor
  {
    Product(v.barcode, v.barcode, OrElse(v.ean, v.barcode), v.name, OrElse(v.description, ""),
            v.mrp, v.costPriceCode, v.stock.Floor, v.lowInventoryFactor.Floor)
  }

  /** A built product is keyed by its barcode, has an EAN, and keeps the
      schema's guarantees: a name of two or more characters, and an MRP,
      stock and threshold that are not negative. */
  lemma BuiltProductWellFormed(v: FormValues)
    requires SchemaValid(v)
    ensures var p := BuildProduct(v);
            p.id == p.barcode && p.barcode != "" && p.ean != "" && |p.name| >= 2 &&
            p.mrp >= 0.0 && p.stock >= 0 && p.lowInventoryFactor >= 0
  {
    SchemaRules(v);
  }

  /** Once a built product is written and the store read back, its barcode
      is found, so submitting the same barcode again is refused. */
  lemma AddedProductFound(docs: Catalog.Store, v: FormValues, order: seq<string>)
    requires SchemaValid(v)
    requires Catalog.IsListing(order, Catalog.Put(docs, BuildProduct(v)))
    ensures Catalog.FindByBarcode(Catalog.Snapshot(Catalog.Put(docs, BuildProduct(v)), order), v.barcode).Some?
  {
    Catalog.WriteThenRead(docs, BuildProduct(v), order);
  }

  /** The prefill: the name and the description are overwritten only by a
      non-empty value from the lookup. */
  function Prefill(v: FormValues, details: PrefillDetails): FormValues
  {
    var v1 := if details.productName != "" then v.(name := details.productName) else v;
    if details.description != "" then v1.(description := Some(details.description)) else v1
  }

  /** The prefill writes a non-empty looked-up name or description and
      otherwise keeps the form's own; it touches nothing but those two
      fields, never empties one the form already has, and applying the same
      details twice is the same as once. */
  lemma PrefillSpec(v: FormValues, details: PrefillDetails)
    ensures Prefill(v, details).name == if details.productName != "" then details.productName else v.name
    ensures Prefill(v, details).description ==
              if details.description != "" then Some(details.description) else v.description
    ensures Prefill(v, details).(name := v.name, description := v.description) == v
    ensures v.name != "" ==> Prefill(v, details).name != ""
    ensures v.description.Some? && v.description.value != "" ==>
              Prefill(v, details).description.Some? && Prefill(v, details).description.value != ""
    ensures Prefill(Prefill(v, details), details) == Prefill(v, details)
  {
  }

  /** The barcode `handleFetchDetails` works on: its argument when non-empty,
      otherwise the form's. */
  function FetchBarcode(argument: string, v: FormValues): string
  {
    if argument != "" then argument else v.barcode
  }

  /** The form's state. */
  class AddProductForm {
    var values: FormValues
    var barcodeError: Option<string>
    var isFetching: bool

    constructor ()
      ensures values == DefaultValues && barcodeError == None && !isFetching
    {
      values := DefaultValues;
      barcodeError := None;
      isFetching := false;
    }

    /** `handleFetchDetails`: `lookup` is what the prefill call returned,
        `None` when it failed. Reports whether the lookup was made. */
    method HandleFetchDetails(argument: string, products: seq<Product>, lookup: Option<PrefillDetails>)
      returns (looked: bool)
      modifies this`values, this`barcodeError, this`isFetching
      ensures FetchBarcode(argument, old(values)) == "" ==>
                !looked && values == old(values) && barcodeError == Some(BarcodeRequired) &&
                isFetching == old(isFetching)
      ensures FetchBarcode(argument, old(values)) != "" ==>
                barcodeError == old(barcodeError) &&
                values.(name := old(values).name, description := old(values).description) ==
                  old(values).(ean := Some(FetchBarcode(argument, old(values))))
      ensures looked <==> FetchBarcode(argument, old(values)) != "" &&
                          Catalog.FindByBarcode(products, FetchBarcode(argument, old(values))).None?
      ensures FetchBarcode(argument, old(values)) != "" && !looked ==>
                values == old(values).(ean := Some(FetchBarcode(argument, old(values)))) &&
                isFetching == old(isFetching)
      ensures looked ==>
                !isFetching &&
                values == match lookup
                          case None => old(values).(ean := Some(FetchBarcode(argument, old(values))))
                          case Some(d) => Prefill(old(values).(ean := Some(FetchBarcode(argument, old(values)))), d)
    {
      var barcode := if argument != "" then argument else values.barcode;
      if barcode == "" {
        barcodeError := Some(BarcodeRequired);
        return false;
      }
      values := values.(ean := Some(barcode));
      if Catalog.FindByBarcode(products, barcode).Some? {
        return false;
      }
      isFetching := true;
      match lookup {
        case Some(details) =>
          if details.productName != "" {
            values := values.(name := details.productName);
          }
          if details.description != "" {
            values := values.(description := Some(details.description));
          }
        case None =>
      }
      isFetching := false;
      looked := true;
    }

    /** `handleBarcodeScanned`: puts the code in the barcode and EAN fields,
        then fetches details for it. Nothing else in the form changes unless
        the lookup is made, and then only as the prefill says. */
    method HandleBarcodeScanned(code: string, products: seq<Product>, lookup: Option<PrefillDetails>)
      returns (looked: bool)
      modifies this`values, this`barcodeError, this`isFetching
      ensures values.barcode == code && values.ean == Some(code)
      ensures looked <==> code != "" && Catalog.FindByBarcode(products, code).None?
      ensures var scanned := old(values).(barcode := code, ean := Some(code));
              values == if !looked then scanned
                        else match lookup
                             case None => scanned
                             case Some(d) => Prefill(scanned, d)
      ensures code == "" ==> barcodeError == Some(BarcodeRequired)
      ensures code != "" ==> barcodeError == old(barcodeError)
      ensures looked ==> !isFetching
      ensures !looked ==> isFetching == old(isFetching)
    {
      values := values.(barcode := code, ean := Some(code));
      looked := HandleFetchDetails(code, products, lookup);
    }

    /** Submitting the form: the schema first, then `onSubmit`, which refuses
        a barcode the catalog already has and otherwise writes the built
        product and resets the form. Validation replaces the barcode's
        message with the schema's own: its message for an empty barcode, or
        none. */
    method Submit(store: Catalog.ProductStore) returns (outcome: SubmitOutcome)
      modifies this`values, this`barcodeError, store`docs
      ensures barcodeError == if BarcodeField in SchemaErrors(old(values)) then Some(BarcodeMissing) else None
      ensures !SchemaValid(old(values)) ==>
                outcome == Invalid(SchemaErrors(old(values))) &&
                values == old(values) && store.docs == old(store.docs)
      ensures SchemaValid(old(values)) && Catalog.FindByBarcode(store.products, old(values).barcode).Some? ==>
                outcome == AlreadyExists && values == old(values) && store.docs == old(store.docs)
      ensures SchemaValid(old(values)) && Catalog.FindByBarcode(store.products, old(values).barcode).None? ==>
                outcome == Added(BuildProduct(old(values))) &&
                store.docs == Catalog.Put(old(store.docs), BuildProduct(old(values))) &&
                values == DefaultValues
    {
      var errors := SchemaErrors(values);
      barcodeError := if BarcodeField in errors then Some(BarcodeMissing) else None;
      if errors != {} {
        return Invalid(errors);
      }
      if Catalog.FindByBarcode(store.products, values.barcode).Some? {
        return AlreadyExists;
      }
      var product := BuildProduct(values);
      store.AddProduct(product);
      values := DefaultValues;
      outcome := Added(product);
    }
  }
}
