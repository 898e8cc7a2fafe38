/** The value objects the product update command builds from raw setter
    arguments. Their validation rules live in classes outside this model,
    so each rule is a parameter (`Constraints`); a constructor either wraps
    its argument or fails with the constraint exception it would throw. */
module ValueObjects {
  import opened Wrappers

  datatype ProductId = ProductId(value: int)

  /** `NoManufacturerId::NO_MANUFACTURER_ID`: the id that means "no
      manufacturer". */
  const NoManufacturerIdValue: int := 0

  /** `ManufacturerIdInterface`: either the "no manufacturer" sentinel or a
      real manufacturer id. */
  datatype ManufacturerIdInterface = NoManufacturerId | ManufacturerId(value: int)

  /** An arbitrary-precision decimal, `coefficient * 10^-exponent`. */
  datatype DecimalNumber = DecimalNumber(coefficient: int, exponent: nat)

  datatype ProductVisibility = ProductVisibility(value: string)
  datatype ProductCondition = ProductCondition(value: string)
  datatype RedirectOption = RedirectOption(redirectType: string, redirectTarget: int)
  datatype Isbn = Isbn(value: string)
  datatype Upc = Upc(value: string)
  datatype Ean13 = Ean13(value: string)
  datatype Reference = Reference(value: string)

  /** The exception each value-object constructor throws on bad input. */
  datatype ConstraintError =
    | ProductConstraint
    | ManufacturerConstraint
    | InvalidDecimal
    | VisibilityConstraint
    | ConditionConstraint
    | RedirectConstraint
    | IsbnConstraint
    | UpcConstraint
    | Ean13Constraint
    | ReferenceConstraint

  /** The acceptance rules of the value-object constructors, and the decimal
      parser, as given functions. */
  datatype Constraints = Constraints(
    isProductId: int -> bool,
    isManufacturerId: int -> bool,
    parseDecimal: string -> Option<DecimalNumber>,
    isVisibility: string -> bool,
    isCondition: string -> bool,
    isRedirect: (string, int) -> bool,
    isIsbn: string -> bool,
    isUpc: string -> bool,
    isEan13: string -> bool,
    isReference: string -> bool)

  function NewProductId(rules: Constraints, id: int): (r: Result<ProductId, ConstraintError>)
    ensures r.Success? <==> rules.isProductId(id)
    ensures r.Success? ==> r.value.value == id
    ensures r.Failure? ==> r.error == ProductConstraint
  {
    if rules.isProductId(id) then Success(ProductId(id)) else Failure(ProductConstraint)
  }

  function NewManufacturerId(rules: Constraints, id: int): (r: Result<ManufacturerIdInterface, ConstraintError>)
    ensures r.Success? <==> rules.isManufacturerId(id)
    ensures r.Success? ==> r.value == ManufacturerId(id)
    ensures r.Failure? ==> r.error == ManufacturerConstraint
  {
    if rules.isManufacturerId(id) then Success(ManufacturerId(id)) else Failure(ManufacturerConstraint)
  }

  function NewDecimalNumber(rules: Constraints, text: string): (r: Result<DecimalNumber, ConstraintError>)
    ensures r.Success? <==> rules.parseDecimal(text).Some?
    ensures r.Success? ==> r.value == rules.parseDecimal(text).value
    ensures r.Failure? ==> r.error == InvalidDecimal
  {
    match rules.parseDecimal(text)
    case Some(d) => Success(d)
    case None => Failure(InvalidDecimal)
  }

  function NewProductVisibility(rules: Constraints, text: string): (r: Result<ProductVisibility, ConstraintError>)
    ensures r.Success? <==> rules.isVisibility(text)
    ensures r.Success? ==> r.value.value == text
    ensures r.Failure? ==> r.error == VisibilityConstraint
  {
    if rules.isVisibility(text) then Success(ProductVisibility(text)) else Failure(VisibilityConstraint)
  }

  function NewProductCondition(rules: Constraints, text: string): (r: Result<ProductCondition, ConstraintError>)
    ensures r.Success? <==> rules.isCondition(text)
    ensures r.Success? ==> r.value.value == text
    ensures r.Failure? ==> r.error == ConditionConstraint
  {
    if rules.isCondition(text) then Success(ProductCondition(text)) else Failure(ConditionConstraint)
  }

  function NewRedirectOption(rules: Constraints, redirectType: string, redirectTarget: int): (r: Result<RedirectOption, ConstraintError>)
    ensures r.Success? <==> rules.isRedirect(redirectType, redirectTarget)
    ensures r.Success? ==> r.value == RedirectOption(redirectType, redirectTarget)
    ensures r.Failure? ==> r.error == RedirectConstraint
  {
    if rules.isRedirect(redirectType, redirectTarget) then Success(RedirectOption(redirectType, redirectTarget))
    else Failure(RedirectConstraint)
  }

  function NewIsbn(rules: Constraints, text: string): (r: Result<Isbn, ConstraintError>)
    ensures r.Success? <==> rules.isIsbn(text)
    ensures r.Success? ==> r.value.value == text
    ensures r.Failure? ==> r.error == IsbnConstraint
  {
    if rules.isIsbn(text) then Success(Isbn(text)) else Failure(IsbnConstraint)
  }

  function NewUpc(rules: Constraints, text: string): (r: Result<Upc, ConstraintError>)
    ensures r.Success? <==> rules.isUpc(text)
    ensures r.Success? ==> r.value.value == text
    ensures r.Failure? ==> r.error == UpcConstraint
  {
    if rules.isUpc(text) then Success(Upc(text)) else Failure(UpcConstraint)
  }

  function NewEan13(rules: Constraints, text: string): (r: Result<Ean13, ConstraintError>)
    ensures r.Success? <==> rules.isEan13(text)
    ensures r.Success? ==> r.value.value == text
    ensures r.Failure? ==> r.error == Ean13Constraint
  {
    if rules.isEan13(text) then Success(Ean13(text)) else Failure(Ean13Constraint)
  }

  function NewReference(rules: Constraints, text: string): (r: Result<Reference, ConstraintError>)
    ensures r.Success? <==> rules.isReference(text)
    ensures r.Success? ==> r.value.value == text
    ensures r.Failure? ==> r.error == ReferenceConstraint
  {
    if rules.isReference(text) then Success(Reference(text)) else Failure(ReferenceConstraint)
  }
}
