/**
 * The shipping step of checkout: the address form's schema, the fixed table of
 * shipping methods with the one selected, and the hand-over to the payment
 * step. Prices are integer cents.
 */
module Shipping {
  import opened Wrappers
  import opened Orders

  /** The fields of the address form. */
  datatype Field = FirstName | LastName | Country | Street | City | State | ZipCode | Phone

  function FieldValue(a: ShippingAddress, f: Field): string {
    match f
    case FirstName => a.firstName
    case LastName => a.lastName
    case Country => a.country
    case Street => a.street
    case City => a.city
    case State => a.state
    case ZipCode => a.zipCode
    case Phone => a.phone
  }

  /** The fields the schema marks `required`; the state / province is the one optional field. */
  const RequiredFields: set<Field> := {FirstName, LastName, Country, Street, City, ZipCode, Phone}

  /** The fields that fail validation: required ones left empty (a blank but non-empty value passes). */
  function FailingFields(a: ShippingAddress): (failing: set<Field>)
    ensures forall f :: f in failing <==> f != State && FieldValue(a, f) == ""
  {
    set f | f in RequiredFields && FieldValue(a, f) == ""
  }

  /** No failing field exactly when the seven required fields are non-empty. */
  lemma NoFailingFieldIff(a: ShippingAddress)
    ensures FailingFields(a) == {} <==>
      a.firstName != "" && a.lastName != "" && a.country != "" && a.street != "" &&
      a.city != "" && a.zipCode != "" && a.phone != ""
  {
    if FailingFields(a) != {} {
      var f :| f in FailingFields(a);
      assert FieldValue(a, f) == "";
    } else {
      assert FirstName !in FailingFields(a) && LastName !in FailingFields(a);
      assert Country !in FailingFields(a) && Street !in FailingFields(a);
      assert City !in FailingFields(a) && ZipCode !in FailingFields(a) && Phone !in FailingFields(a);
    }
  }

  /** The address passes exactly when the seven required fields are non-empty. */
  predicate AddressValid(a: ShippingAddress): (valid: bool)
    ensures valid <==>
      a.firstName != "" && a.lastName != "" && a.country != "" && a.street != "" &&
      a.city != "" && a.zipCode != "" && a.phone != ""
  {
    NoFailingFieldIff(a);
    FailingFields(a) == {}
  }

  /** Whatever the state / province holds, validity does not change. */
  lemma StateIsOptional(a: ShippingAddress, state: string)
    ensures AddressValid(a.(state := state)) == AddressValid(a)
  {
  }

  const ShippingMethods: seq<ShippingMethod> := [
    ShippingMethod("free", "Free", 0, "Delivery from 3 to 7 business days"),
    ShippingMethod("standard", "$ 9.90", 990, "Delivery from 4 to 6 business days"),
    ShippingMethod("fast", "$ 9.90", 990, "Delivery from 2 to 3 business days")
  ]

  /** Three methods with distinct ids, costing 0, 9.90 and 9.90; the first is the free one. */
  lemma MethodTable()
    ensures |ShippingMethods| == 3
    ensures forall i, j :: 0 <= i < j < |ShippingMethods| ==> ShippingMethods[i].id != ShippingMethods[j].id
    ensures ShippingMethods[0].id == "free" && ShippingMethods[0].price == 0
    ensures ShippingMethods[1].price == 990 && ShippingMethods[2].price == 990
  {
    assert ShippingMethods[0].id[0] == 'f' && ShippingMethods[0].id[1] == 'r';
    assert ShippingMethods[1].id[0] == 's';
    assert ShippingMethods[2].id[0] == 'f' && ShippingMethods[2].id[1] == 'a';
  }

  /** The array `find`: the first method with the id, or nothing. */
  function FindMethod(methods: seq<ShippingMethod>, id: string): (found: Option<ShippingMethod>)
    ensures found.None? <==> forall i :: 0 <= i < |methods| ==> methods[i].id != id
    ensures found.Some? ==>
              exists i :: 0 <= i < |methods| && methods[i] == found.value && methods[i].id == id &&
                          forall j :: 0 <= j < i ==> methods[j].id != id
  {
    if methods == [] then None
    else if methods[0].id == id then Some(methods[0])
    else
      var rest := FindMethod(methods[1..], id);
      assert forall i :: 1 <= i < |methods| ==> methods[i] == methods[1..][i - 1];
      rest
  }

  /** In the table, looking up the id of any entry gives that very entry. */
  lemma FindReturnsTheEntry(k: nat)
    requires k < |ShippingMethods|
    ensures FindMethod(ShippingMethods, ShippingMethods[k].id) == Some(ShippingMethods[k])
  {
    MethodTable();
  }

  /** The small label beside each method's name: 'Fast Delivery' only for a non-free method not named '$ 9.90'. */
  function DeliveryType(m: ShippingMethod): (text: string)
    ensures text == "Delivery to home" || text == "Fast Delivery"
    ensures m.id == "free" || m.name == "$ 9.90" ==> text == "Delivery to home"
    ensures m.id != "free" && m.name != "$ 9.90" ==> text == "Fast Delivery"
  {
    if m.id == "free" then "Delivery to home"
    else if m.name == "$ 9.90" then "Delivery to home"
    else "Fast Delivery"
  }

  /** Every entry of the table reads 'Delivery to home': the 'Fast Delivery' label never shows, not even for 'fast'. */
  lemma FastDeliveryLabelNeverShows(k: nat)
    requires k < |ShippingMethods|
    ensures DeliveryType(ShippingMethods[k]) == "Delivery to home"
  {
    if k != 0 {
      assert ShippingMethods[k].name == "$ 9.90";
    }
  }

  /** What the payment step receives. `method` is undefined only if the selected id were not in the table. */
  datatype PaymentRoute = PaymentRoute(shippingAddress: ShippingAddress, shippingMethod: Option<ShippingMethod>)

  class ShippingStep {
    var selectedMethod: string

    /** The selection is always the id of a method in the table. */
    ghost predicate Valid()
      reads this
    {
      exists k :: 0 <= k < |ShippingMethods| && ShippingMethods[k].id == selectedMethod
    }

    /** The free method is selected to begin with. */
    constructor ()
      ensures Valid()
      ensures selectedMethod == ShippingMethods[0].id
    {
      selectedMethod := ShippingMethods[0].id;
    }

    /** Tapping a method's card selects it. */
    method Choose(k: nat)
      requires k < |ShippingMethods|
      modifies this
      ensures Valid()
      ensures selectedMethod == ShippingMethods[k].id
    {
      selectedMethod := ShippingMethods[k].id;
    }

    /**
     * 'Continue to payment': with a valid address, the form's values and the
     * selected method go to the payment step; otherwise nothing happens. The
     * coupon text plays no part.
     */
    method Submit(values: ShippingAddress, coupon: string) returns (next: Option<PaymentRoute>)
      requires Valid()
      ensures next.Some? <==> AddressValid(values)
      ensures next.Some? ==> next.value.shippingAddress == values
      ensures next.Some? ==> next.value.shippingMethod.Some?
      ensures next.Some? ==> next.value.shippingMethod.value in ShippingMethods
      ensures next.Some? ==> next.value.shippingMethod.value.id == selectedMethod
    {
      if AddressValid(values) {
        next := Some(PaymentRoute(values, FindMethod(ShippingMethods, selectedMethod)));
      } else {
        next := None;
      }
    }
  }
}
