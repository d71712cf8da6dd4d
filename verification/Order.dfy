/**
 * The order entity (model/Order.java): its five fields, its getters and
 * setters, and the Bean Validation constraints declared on it
 * (@NotBlank on the customer name and on the shipping address,
 * @Positive on the total).
 */
module Model {
  import opened Wrappers

  /** A java.time.LocalDate. The service stores and returns it and never looks inside. */
  datatype Date = Date(epochDay: int)

  /**
   * One order. Every field of the Java bean is a reference that may be
   * null, so each is an Option. The getters are the field names.
   */
  datatype Order = Order(
    id: Option<int>,
    customerName: Option<string>,
    orderDate: Option<Date>,
    shippingAddress: Option<string>,
    total: Option<real>)
  {
    function SetId(id: Option<int>): Order { this.(id := id) }
    function SetCustomerName(customerName: Option<string>): Order { this.(customerName := customerName) }
    function SetOrderDate(orderDate: Option<Date>): Order { this.(orderDate := orderDate) }
    function SetShippingAddress(shippingAddress: Option<string>): Order { this.(shippingAddress := shippingAddress) }
    function SetTotal(total: Option<real>): Order { this.(total := total) }
  }

  /** `new Order()`: the default constructor leaves every field null. */
  function NewOrder(): (o: Order)
    ensures o.id.None? && o.customerName.None? && o.orderDate.None?
    ensures o.shippingAddress.None? && o.total.None?
  {
    Order(None, None, None, None, None)
  }

  /** Each setter changes its own field, and only that one. */
  lemma SettersChangeOnlyTheirField(o: Order, id: Option<int>, name: Option<string>,
                                    date: Option<Date>, address: Option<string>, total: Option<real>)
    ensures o.SetId(id) == Order(id, o.customerName, o.orderDate, o.shippingAddress, o.total)
    ensures o.SetCustomerName(name) == Order(o.id, name, o.orderDate, o.shippingAddress, o.total)
    ensures o.SetOrderDate(date) == Order(o.id, o.customerName, date, o.shippingAddress, o.total)
    ensures o.SetShippingAddress(address) == Order(o.id, o.customerName, o.orderDate, address, o.total)
    ensures o.SetTotal(total) == Order(o.id, o.customerName, o.orderDate, o.shippingAddress, total)
  {
  }

  // The default messages of the three constraints.
  const CustomerNameRequired: string := "Customer name is required"
  const ShippingAddressRequired: string := "Shipping address is required"
  const TotalMustBePositive: string := "Total must be a positive value"

  /** The characters String.trim removes: every code point up to U+0020. */
  predicate IsTrimmable(c: char) {
    c <= ' '
  }

  /** `s` with its leading trimmable characters removed. */
  function TrimStart(s: string): (r: string)
    ensures |r| <= |s| && r == s[|s| - |r|..]
    ensures r != [] ==> !IsTrimmable(r[0])
    ensures forall i :: 0 <= i < |s| - |r| ==> IsTrimmable(s[i])
  {
    if |s| > 0 && IsTrimmable(s[0]) then TrimStart(s[1..]) else s
  }

  /** `s` with its trailing trimmable characters removed. */
  function TrimEnd(s: string): (r: string)
    ensures |r| <= |s| && r == s[..|r|]
    ensures r != [] ==> !IsTrimmable(r[|r| - 1])
    ensures forall i :: |r| <= i < |s| ==> IsTrimmable(s[i])
  {
    if |s| > 0 && IsTrimmable(s[|s| - 1]) then TrimEnd(s[..|s| - 1]) else s
  }

  /** String.trim: both ends stripped. */
  function Trim(s: string): string {
    TrimEnd(TrimStart(s))
  }

  /** @NotBlank, as the Bean Validation reference implementation checks it: not null, and not empty once trimmed. */
  predicate NotBlank(s: Option<string>) {
    s.Some? && |Trim(s.value)| > 0
  }

  /** A string trims to nothing exactly when every character in it is trimmable. */
  lemma TrimEmptyIffAllTrimmable(s: string)
    ensures Trim(s) == [] <==> forall i :: 0 <= i < |s| ==> IsTrimmable(s[i])
  {
    // Follows from the contracts of TrimStart and TrimEnd.
  }

  /** @Positive: Bean Validation treats a null total as valid; otherwise it must exceed zero. */
  predicate Positive(x: Option<real>) {
    x.None? || x.value > 0.0
  }

  /** All three constraints of the entity hold. */
  predicate IsValid(o: Order) {
    NotBlank(o.customerName) && NotBlank(o.shippingAddress) && Positive(o.total)
  }

  /**
   * The messages of the constraints that fail, given which of them hold;
   * each message occurs at most once.
   */
  function Violations(nameOk: bool, addressOk: bool, totalOk: bool): (errors: seq<string>)
    ensures CustomerNameRequired in errors <==> !nameOk
    ensures ShippingAddressRequired in errors <==> !addressOk
    ensures TotalMustBePositive in errors <==> !totalOk
    ensures forall i :: 0 <= i < |errors| ==>
              errors[i] == CustomerNameRequired || errors[i] == ShippingAddressRequired || errors[i] == TotalMustBePositive
    ensures forall i, j :: 0 <= i < j < |errors| ==> errors[i] != errors[j]
  {
    assert CustomerNameRequired[0] == 'C' && ShippingAddressRequired[0] == 'S' && TotalMustBePositive[0] == 'T';
    (if nameOk then [] else [CustomerNameRequired])
    + (if addressOk then [] else [ShippingAddressRequired])
    + (if totalOk then [] else [TotalMustBePositive])
  }

  /**
   * The messages of the violated constraints of `o`. They are listed in
   * field order here, but nothing outside this function depends on that:
   * the contract only says which messages occur, each at most once.
   */
  function Validate(o: Order): (errors: seq<string>)
    ensures CustomerNameRequired in errors <==> !NotBlank(o.customerName)
    ensures ShippingAddressRequired in errors <==> !NotBlank(o.shippingAddress)
    ensures TotalMustBePositive in errors <==> !Positive(o.total)
    ensures forall i :: 0 <= i < |errors| ==>
              errors[i] == CustomerNameRequired || errors[i] == ShippingAddressRequired || errors[i] == TotalMustBePositive
    ensures forall i, j :: 0 <= i < j < |errors| ==> errors[i] != errors[j]
  {
    Violations(NotBlank(o.customerName), NotBlank(o.shippingAddress), Positive(o.total))
  }

  /** An order yields no error exactly when it satisfies all three constraints. */
  lemma ValidateEmptyIffValid(o: Order)
    ensures Validate(o) == [] <==> IsValid(o)
  {
    if !IsValid(o) {
      assert CustomerNameRequired in Validate(o) || ShippingAddressRequired in Validate(o)
          || TotalMustBePositive in Validate(o);
    }
  }

  /** A blank name or address is one made only of characters at or below U+0020, null included. */
  lemma BlankMeansOnlyWhitespace(s: Option<string>)
    ensures !NotBlank(s) <==> s.None? || forall i :: 0 <= i < |s.value| ==> IsTrimmable(s.value[i])
  {
    if s.Some? {
      TrimEmptyIffAllTrimmable(s.value);
    }
  }

  /** The id and the order date carry no constraint: changing them never changes the errors. */
  lemma ValidateIgnoresIdAndDate(o: Order, id: Option<int>, date: Option<Date>)
    ensures Validate(o.SetId(id).SetOrderDate(date)) == Validate(o)
  {
  }
}
