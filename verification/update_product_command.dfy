/** The partial product update command: a product id, a shop scope and
    twenty-six optional fields, where an unset field (`None`, PHP `null`)
    means "do not change". The command is filled by fluent setters; here a
    setter call is a `Setter` value and `Apply` is its effect. */
module ProductCommand {
  import opened Wrappers
  import ValueObjects

  /** Language id to text, as the localized setters receive it. */
  type LocalizedStrings = map<int, string>

  /** The shop scope the update applies to. Its own rules are outside this
      model; the command only stores it. */
  datatype ShopConstraint = ShopConstraint(shopId: Option<int>, shopGroupId: Option<int>, isStrict: bool)

  /** The state of an `UpdateProductCommand`; each field selector is the
      corresponding getter. */
  datatype UpdateProductCommand = UpdateProductCommand(
    productId: ValueObjects.ProductId,
    shopConstraint: ShopConstraint,
    localizedNames: Option<LocalizedStrings>,
    localizedDescriptions: Option<LocalizedStrings>,
    localizedShortDescriptions: Option<LocalizedStrings>,
    visibility: Option<ValueObjects.ProductVisibility>,
    availableForOrder: Option<bool>,
    onlineOnly: Option<bool>,
    showPrice: Option<bool>,
    condition: Option<ValueObjects.ProductCondition>,
    showCondition: Option<bool>,
    manufacturerId: Option<ValueObjects.ManufacturerIdInterface>,
    price: Option<ValueObjects.DecimalNumber>,
    ecotax: Option<ValueObjects.DecimalNumber>,
    taxRulesGroupId: Option<int>,
    onSale: Option<bool>,
    wholesalePrice: Option<ValueObjects.DecimalNumber>,
    unitPrice: Option<ValueObjects.DecimalNumber>,
    unity: Option<string>,
    localizedMetaTitles: Option<LocalizedStrings>,
    localizedMetaDescriptions: Option<LocalizedStrings>,
    localizedLinkRewrites: Option<LocalizedStrings>,
    redirectOption: Option<ValueObjects.RedirectOption>,
    isbn: Option<ValueObjects.Isbn>,
    upc: Option<ValueObjects.Upc>,
    ean13: Option<ValueObjects.Ean13>,
    mpn: Option<string>,
    reference: Option<ValueObjects.Reference>)

  /** The optional fields, one per setter/getter pair. */
  datatype Field =
    | LocalizedNames | LocalizedDescriptions | LocalizedShortDescriptions
    | Visibility | AvailableForOrder | OnlineOnly | ShowPrice | Condition | ShowCondition
    | ManufacturerId | Price | Ecotax | TaxRulesGroupId | OnSale | WholesalePrice | UnitPrice | Unity
    | LocalizedMetaTitles | LocalizedMetaDescriptions | LocalizedLinkRewrites
    | RedirectOption | Isbn | Upc | Ean13 | Mpn | Reference

  /** The content of one optional field, tagged with the field's type. */
  datatype Slot =
    | LocalizedValue(strings: Option<LocalizedStrings>)
    | FlagValue(flag: Option<bool>)
    | TextValue(text: Option<string>)
    | IntValue(number: Option<int>)
    | DecimalValue(decimal: Option<ValueObjects.DecimalNumber>)
    | VisibilityValue(visibility: Option<ValueObjects.ProductVisibility>)
    | ConditionValue(condition: Option<ValueObjects.ProductCondition>)
    | ManufacturerValue(manufacturer: Option<ValueObjects.ManufacturerIdInterface>)
    | RedirectValue(redirect: Option<ValueObjects.RedirectOption>)
    | IsbnValue(isbn: Option<ValueObjects.Isbn>)
    | UpcValue(upc: Option<ValueObjects.Upc>)
    | Ean13Value(ean13: Option<ValueObjects.Ean13>)
    | ReferenceValue(reference: Option<ValueObjects.Reference>)

  /** The getter of a field. */
  function Get(c: UpdateProductCommand, f: Field): Slot
  {
    match f
    case LocalizedNames => LocalizedValue(c.localizedNames)
    case LocalizedDescriptions => LocalizedValue(c.localizedDescriptions)
    case LocalizedShortDescriptions => LocalizedValue(c.localizedShortDescriptions)
    case Visibility => VisibilityValue(c.visibility)
    case AvailableForOrder => FlagValue(c.availableForOrder)
    case OnlineOnly => FlagValue(c.onlineOnly)
    case ShowPrice => FlagValue(c.showPrice)
    case Condition => ConditionValue(c.condition)
    case ShowCondition => FlagValue(c.showCondition)
    case ManufacturerId => ManufacturerValue(c.manufacturerId)
    case Price => DecimalValue(c.price)
    case Ecotax => DecimalValue(c.ecotax)
    case TaxRulesGroupId => IntValue(c.taxRulesGroupId)
    case OnSale => FlagValue(c.onSale)
    case WholesalePrice => DecimalValue(c.wholesalePrice)
    case UnitPrice => DecimalValue(c.unitPrice)
    case Unity => TextValue(c.unity)
    case LocalizedMetaTitles => LocalizedValue(c.localizedMetaTitles)
    case LocalizedMetaDescriptions => LocalizedValue(c.localizedMetaDescriptions)
    case LocalizedLinkRewrites => LocalizedValue(c.localizedLinkRewrites)
    case RedirectOption => RedirectValue(c.redirectOption)
    case Isbn => IsbnValue(c.isbn)
    case Upc => UpcValue(c.upc)
    case Ean13 => Ean13Value(c.ean13)
    case Mpn => TextValue(c.mpn)
    case Reference => ReferenceValue(c.reference)
  }

  /** An unset field of any type. */
  predicate IsUnset(s: Slot)
  {
    match s
    case LocalizedValue(v) => v.None?
    case FlagValue(v) => v.None?
    case TextValue(v) => v.None?
    case IntValue(v) => v.None?
    case DecimalValue(v) => v.None?
    case VisibilityValue(v) => v.None?
    case ConditionValue(v) => v.None?
    case ManufacturerValue(v) => v.None?
    case RedirectValue(v) => v.None?
    case IsbnValue(v) => v.None?
    case UpcValue(v) => v.None?
    case Ean13Value(v) => v.None?
    case ReferenceValue(v) => v.None?
  }

  /** `c` and `d` have the same product id and shop constraint and agree
      on every optional field except possibly `f`: the frame of a setter. */
  predicate SameExcept(c: UpdateProductCommand, d: UpdateProductCommand, f: Field)
  {
    && c.productId == d.productId
    && c.shopConstraint == d.shopConstraint
    && (f == LocalizedNames || c.localizedNames == d.localizedNames)
    && (f == LocalizedDescriptions || c.localizedDescriptions == d.localizedDescriptions)
    && (f == LocalizedShortDescriptions || c.localizedShortDescriptions == d.localizedShortDescriptions)
    && (f == Visibility || c.visibility == d.visibility)
    && (f == AvailableForOrder || c.availableForOrder == d.availableForOrder)
    && (f == OnlineOnly || c.onlineOnly == d.onlineOnly)
    && (f == ShowPrice || c.showPrice == d.showPrice)
    && (f == Condition || c.condition == d.condition)
    && (f == ShowCondition || c.showCondition == d.showCondition)
    && (f == ManufacturerId || c.manufacturerId == d.manufacturerId)
    && (f == Price || c.price == d.price)
    && (f == Ecotax || c.ecotax == d.ecotax)
    && (f == TaxRulesGroupId || c.taxRulesGroupId == d.taxRulesGroupId)
    && (f == OnSale || c.onSale == d.onSale)
    && (f == WholesalePrice || c.wholesalePrice == d.wholesalePrice)
    && (f == UnitPrice || c.unitPrice == d.unitPrice)
    && (f == Unity || c.unity == d.unity)
    && (f == LocalizedMetaTitles || c.localizedMetaTitles == d.localizedMetaTitles)
    && (f == LocalizedMetaDescriptions || c.localizedMetaDescriptions == d.localizedMetaDescriptions)
    && (f == LocalizedLinkRewrites || c.localizedLinkRewrites == d.localizedLinkRewrites)
    && (f == RedirectOption || c.redirectOption == d.redirectOption)
    && (f == Isbn || c.isbn == d.isbn)
    && (f == Upc || c.upc == d.upc)
    && (f == Ean13 || c.ean13 == d.ean13)
    && (f == Mpn || c.mpn == d.mpn)
    && (f == Reference || c.reference == d.reference)
  }

  /** A command is determined by its id, its scope and its getters: two
      commands that agree everywhere but on `f`, and on `f` too, are equal. */
  lemma SameExceptAndAtIsEqual(c: UpdateProductCommand, d: UpdateProductCommand, f: Field)
    requires SameExcept(c, d, f) && Get(c, f) == Get(d, f)
    ensures c == d
  {
  }

  /** `SameExcept` read through the getters. */
  lemma SameExceptGetters(c: UpdateProductCommand, d: UpdateProductCommand, f: Field)
    requires SameExcept(c, d, f)
    ensures forall g :: g != f ==> Get(c, g) == Get(d, g)
  {
  }

  /** The constructor: wraps the id in a `ProductId` (which may reject it),
      keeps the shop constraint, and leaves every optional field unset. */
  function New(rules: ValueObjects.Constraints, productId: int, shopConstraint: ShopConstraint)
    : (r: Result<UpdateProductCommand, ValueObjects.ConstraintError>)
    ensures r.Success? <==> rules.isProductId(productId)
    ensures r.Failure? ==> r.error == ValueObjects.ProductConstraint
    ensures r.Success? ==> r.value.productId.value == productId && r.value.shopConstraint == shopConstraint
    ensures r.Success? ==> forall f :: IsUnset(Get(r.value, f))
  {
    ValueObjects.NewProductId(rules, productId).MapValue(
      (id: ValueObjects.ProductId) => UpdateProductCommand(
        id, shopConstraint,
        None, None, None, None, None, None, None, None, None, None, None, None, None,
        None, None, None, None, None, None, None, None, None, None, None, None, None))
  }

  /** One fluent setter call with its arguments. */
  datatype Setter =
    | SetLocalizedNames(localizedNames: LocalizedStrings)
    | SetLocalizedDescriptions(localizedDescriptions: LocalizedStrings)
    | SetLocalizedShortDescriptions(localizedShortDescriptions: LocalizedStrings)
    | SetVisibility(visibility: string)
    | SetAvailableForOrder(availableForOrder: bool)
    | SetOnlineOnly(onlineOnly: bool)
    | SetShowPrice(showPrice: bool)
    | SetCondition(condition: string)
    | SetShowCondition(showCondition: bool)
    | SetManufacturerId(manufacturerId: int)
    | SetPrice(price: string)
    | SetEcotax(ecotax: string)
    | SetTaxRulesGroupId(taxRulesGroupId: int)
    | SetOnSale(onSale: bool)
    | SetWholesalePrice(wholesalePrice: string)
    | SetUnitPrice(unitPrice: string)
    | SetUnity(unity: string)
    | SetLocalizedMetaTitles(localizedMetaTitles: LocalizedStrings)
    | SetLocalizedMetaDescriptions(localizedMetaDescriptions: LocalizedStrings)
    | SetLocalizedLinkRewrites(localizedLinkRewrites: LocalizedStrings)
    | SetRedirectOption(redirectType: string, redirectTarget: int)
    | SetIsbn(isbn: string)
    | SetUpc(upc: string)
    | SetEan13(ean13: string)
    | SetMpn(mpn: string)
    | SetReference(reference: string)

  /** The field a setter writes. */
  function FieldOf(s: Setter): Field
  {
    match s
    case SetLocalizedNames(_) => LocalizedNames
    case SetLocalizedDescriptions(_) => LocalizedDescriptions
    case SetLocalizedShortDescriptions(_) => LocalizedShortDescriptions
    case SetVisibility(_) => Visibility
    case SetAvailableForOrder(_) => AvailableForOrder
    case SetOnlineOnly(_) => OnlineOnly
    case SetShowPrice(_) => ShowPrice
    case SetCondition(_) => Condition
    case SetShowCondition(_) => ShowCondition
    case SetManufacturerId(_) => ManufacturerId
    case SetPrice(_) => Price
    case SetEcotax(_) => Ecotax
    case SetTaxRulesGroupId(_) => TaxRulesGroupId
    case SetOnSale(_) => OnSale
    case SetWholesalePrice(_) => WholesalePrice
    case SetUnitPrice(_) => UnitPrice
    case SetUnity(_) => Unity
    case SetLocalizedMetaTitles(_) => LocalizedMetaTitles
    case SetLocalizedMetaDescriptions(_) => LocalizedMetaDescriptions
    case SetLocalizedLinkRewrites(_) => LocalizedLinkRewrites
    case SetRedirectOption(_, _) => RedirectOption
    case SetIsbn(_) => Isbn
    case SetUpc(_) => Upc
    case SetEan13(_) => Ean13
    case SetMpn(_) => Mpn
    case SetReference(_) => Reference
  }

  /** `setManufacturerId`'s choice of value object: the sentinel id gives
      `NoManufacturerId`, any other id goes through `ManufacturerId`'s
      constructor, which may reject it. */
  function ManufacturerIdFor(rules: ValueObjects.Constraints, id: int)
    : (r: Result<ValueObjects.ManufacturerIdInterface, ValueObjects.ConstraintError>)
    ensures r == Success(ValueObjects.NoManufacturerId) <==> id == ValueObjects.NoManufacturerIdValue
    ensures id != ValueObjects.NoManufacturerIdValue && rules.isManufacturerId(id)
      ==> r == Success(ValueObjects.ManufacturerId(id))
    ensures id != ValueObjects.NoManufacturerIdValue && !rules.isManufacturerId(id)
      ==> r == Failure(ValueObjects.ManufacturerConstraint)
  {
    if ValueObjects.NoManufacturerIdValue == id then Success(ValueObjects.NoManufacturerId)
    else ValueObjects.NewManufacturerId(rules, id)
  }

  /** What a setter's argument becomes before it is stored: the argument
      itself for plain setters, the value object built from it otherwise,
      or the exception that construction throws. */
  function Built(rules: ValueObjects.Constraints, s: Setter): (r: Result<Slot, ValueObjects.ConstraintError>)
    ensures r.Success? ==> Fits(FieldOf(s), r.value)
  {
    match s
    case SetLocalizedNames(m) => Success(LocalizedValue(Some(m)))
    case SetLocalizedDescriptions(m) => Success(LocalizedValue(Some(m)))
    case SetLocalizedShortDescriptions(m) => Success(LocalizedValue(Some(m)))
    case SetVisibility(t) =>
      ValueObjects.NewProductVisibility(rules, t).MapValue((v: ValueObjects.ProductVisibility) => VisibilityValue(Some(v)))
    case SetAvailableForOrder(b) => Success(FlagValue(Some(b)))
    case SetOnlineOnly(b) => Success(FlagValue(Some(b)))
    case SetShowPrice(b) => Success(FlagValue(Some(b)))
    case SetCondition(t) =>
      ValueObjects.NewProductCondition(rules, t).MapValue((v: ValueObjects.ProductCondition) => ConditionValue(Some(v)))
    case SetShowCondition(b) => Success(FlagValue(Some(b)))
    case SetManufacturerId(id) =>
      ManufacturerIdFor(rules, id).MapValue((v: ValueObjects.ManufacturerIdInterface) => ManufacturerValue(Some(v)))
    case SetPrice(t) =>
      ValueObjects.NewDecimalNumber(rules, t).MapValue((v: ValueObjects.DecimalNumber) => DecimalValue(Some(v)))
    case SetEcotax(t) =>
      ValueObjects.NewDecimalNumber(rules, t).MapValue((v: ValueObjects.DecimalNumber) => DecimalValue(Some(v)))
    case SetTaxRulesGroupId(n) => Success(IntValue(Some(n)))
    case SetOnSale(b) => Success(FlagValue(Some(b)))
    case SetWholesalePrice(t) =>
      ValueObjects.NewDecimalNumber(rules, t).MapValue((v: ValueObjects.DecimalNumber) => DecimalValue(Some(v)))
    case SetUnitPrice(t) =>
      ValueObjects.NewDecimalNumber(rules, t).MapValue((v: ValueObjects.DecimalNumber) => DecimalValue(Some(v)))
    case SetUnity(t) => Success(TextValue(Some(t)))
    case SetLocalizedMetaTitles(m) => Success(LocalizedValue(Some(m)))
    case SetLocalizedMetaDescriptions(m) => Success(LocalizedValue(Some(m)))
    case SetLocalizedLinkRewrites(m) => Success(LocalizedValue(Some(m)))
    case SetRedirectOption(t, n) =>
      ValueObjects.NewRedirectOption(rules, t, n).MapValue((v: ValueObjects.RedirectOption) => RedirectValue(Some(v)))
    case SetIsbn(t) => ValueObjects.NewIsbn(rules, t).MapValue((v: ValueObjects.Isbn) => IsbnValue(Some(v)))
    case SetUpc(t) => ValueObjects.NewUpc(rules, t).MapValue((v: ValueObjects.Upc) => UpcValue(Some(v)))
    case SetEan13(t) => ValueObjects.NewEan13(rules, t).MapValue((v: ValueObjects.Ean13) => Ean13Value(Some(v)))
    case SetMpn(t) => Success(TextValue(Some(t)))
    case SetReference(t) =>
      ValueObjects.NewReference(rules, t).MapValue((v: ValueObjects.Reference) => ReferenceValue(Some(v)))
  }

  /** True when the setter's value-object construction succeeds, that is,
      when the call returns normally. */
  predicate Accepts(rules: ValueObjects.Constraints, s: Setter)
  {
    Built(rules, s).Success?
  }

  /** The state of the command after a setter call, and the exception the
      call threw, if any. */
  datatype Step = Step(command: UpdateProductCommand, thrown: Option<ValueObjects.ConstraintError>)

  /** `v` has the type field `f` holds. */
  predicate Fits(f: Field, v: Slot)
  {
    match f
    case LocalizedNames => v.LocalizedValue?
    case LocalizedDescriptions => v.LocalizedValue?
    case LocalizedShortDescriptions => v.LocalizedValue?
    case Visibility => v.VisibilityValue?
    case AvailableForOrder => v.FlagValue?
    case OnlineOnly => v.FlagValue?
    case ShowPrice => v.FlagValue?
    case Condition => v.ConditionValue?
    case ShowCondition => v.FlagValue?
    case ManufacturerId => v.ManufacturerValue?
    case Price => v.DecimalValue?
    case Ecotax => v.DecimalValue?
    case TaxRulesGroupId => v.IntValue?
    case OnSale => v.FlagValue?
    case WholesalePrice => v.DecimalValue?
    case UnitPrice => v.DecimalValue?
    case Unity => v.TextValue?
    case LocalizedMetaTitles => v.LocalizedValue?
    case LocalizedMetaDescriptions => v.LocalizedValue?
    case LocalizedLinkRewrites => v.LocalizedValue?
    case RedirectOption => v.RedirectValue?
    case Isbn => v.IsbnValue?
    case Upc => v.UpcValue?
    case Ean13 => v.Ean13Value?
    case Mpn => v.TextValue?
    case Reference => v.ReferenceValue?
  }

  /** The assignment `$this->f = v` of a setter. */
  function Put(c: UpdateProductCommand, f: Field, v: Slot): (r: UpdateProductCommand)
    requires Fits(f, v)
    ensures SameExcept(c, r, f)
    ensures Get(r, f) == v
  {
    match f
    case LocalizedNames => c.(localizedNames := v.strings)
    case LocalizedDescriptions => c.(localizedDescriptions := v.strings)
    case LocalizedShortDescriptions => c.(localizedShortDescriptions := v.strings)
    case Visibility => c.(visibility := v.visibility)
    case AvailableForOrder => c.(availableForOrder := v.flag)
    case OnlineOnly => c.(onlineOnly := v.flag)
    case ShowPrice => c.(showPrice := v.flag)
    case Condition => c.(condition := v.condition)
    case ShowCondition => c.(showCondition := v.flag)
    case ManufacturerId => c.(manufacturerId := v.manufacturer)
    case Price => c.(price := v.decimal)
    case Ecotax => c.(ecotax := v.decimal)
    case TaxRulesGroupId => c.(taxRulesGroupId := v.number)
    case OnSale => c.(onSale := v.flag)
    case WholesalePrice => c.(wholesalePrice := v.decimal)
    case UnitPrice => c.(unitPrice := v.decimal)
    case Unity => c.(unity := v.text)
    case LocalizedMetaTitles => c.(localizedMetaTitles := v.strings)
    case LocalizedMetaDescriptions => c.(localizedMetaDescriptions := v.strings)
    case LocalizedLinkRewrites => c.(localizedLinkRewrites := v.strings)
    case RedirectOption => c.(redirectOption := v.redirect)
    case Isbn => c.(isbn := v.isbn)
    case Upc => c.(upc := v.upc)
    case Ean13 => c.(ean13 := v.ean13)
    case Mpn => c.(mpn := v.text)
    case Reference => c.(reference := v.reference)
  }

  /** One setter call: build the value to store (a value-object
      constructor may throw, and then the assignment never happens), then
      assign it to the setter's field. */
  function Apply(rules: ValueObjects.Constraints, c: UpdateProductCommand, s: Setter): (r: Step)
    ensures SameExcept(c, r.command, FieldOf(s))
    ensures Accepts(rules, s) ==> r.thrown.None? && Get(r.command, FieldOf(s)) == Built(rules, s).value
    ensures !Accepts(rules, s) ==> r == Step(c, Some(Built(rules, s).error))
  {
    match Built(rules, s)
    case Success(v) => Step(Put(c, FieldOf(s), v), None)
    case Failure(e) => Step(c, Some(e))
  }

  /** Whether a call can never throw: the setters that store their argument
      as given. */
  predicate IsPlain(s: Setter)
  {
    || s.SetLocalizedNames? || s.SetLocalizedDescriptions? || s.SetLocalizedShortDescriptions?
    || s.SetLocalizedMetaTitles? || s.SetLocalizedMetaDescriptions? || s.SetLocalizedLinkRewrites?
    || s.SetAvailableForOrder? || s.SetOnlineOnly? || s.SetShowPrice? || s.SetShowCondition? || s.SetOnSale?
    || s.SetTaxRulesGroupId? || s.SetUnity? || s.SetMpn?
  }

  /** The localized text setters store the given language-to-text map,
      which the matching getter returns. */
  lemma LocalizedTextSettersRoundTrip(rules: ValueObjects.Constraints, c: UpdateProductCommand, strings: LocalizedStrings)
    ensures Apply(rules, c, SetLocalizedNames(strings)).command.localizedNames == Some(strings)
    ensures Apply(rules, c, SetLocalizedDescriptions(strings)).command.localizedDescriptions == Some(strings)
    ensures Apply(rules, c, SetLocalizedShortDescriptions(strings)).command.localizedShortDescriptions == Some(strings)
  {
  }

  /** The localized SEO setters (meta titles, meta descriptions, link
      rewrites) store the given map, which the matching getter returns. */
  lemma LocalizedSeoSettersRoundTrip(rules: ValueObjects.Constraints, c: UpdateProductCommand, strings: LocalizedStrings)
    ensures Apply(rules, c, SetLocalizedMetaTitles(strings)).command.localizedMetaTitles == Some(strings)
    ensures Apply(rules, c, SetLocalizedMetaDescriptions(strings)).command.localizedMetaDescriptions == Some(strings)
    ensures Apply(rules, c, SetLocalizedLinkRewrites(strings)).command.localizedLinkRewrites == Some(strings)
  {
  }

  /** The availability flags' setters store the flag, which the matching
      getter (`isAvailableForOrder`, `isOnlineOnly`, `isOnSale`) returns. */
  lemma AvailabilityFlagSettersRoundTrip(rules: ValueObjects.Constraints, c: UpdateProductCommand, flag: bool)
    ensures Apply(rules, c, SetAvailableForOrder(flag)).command.availableForOrder == Some(flag)
    ensures Apply(rules, c, SetOnlineOnly(flag)).command.onlineOnly == Some(flag)
    ensures Apply(rules, c, SetOnSale(flag)).command.onSale == Some(flag)
  {
  }

  /** `setShowPrice` and `setShowCondition` store the flag that
      `showPrice()` and `showCondition()` then return. */
  lemma DisplayFlagSettersRoundTrip(rules: ValueObjects.Constraints, c: UpdateProductCommand, flag: bool)
    ensures Apply(rules, c, SetShowPrice(flag)).command.showPrice == Some(flag)
    ensures Apply(rules, c, SetShowCondition(flag)).command.showCondition == Some(flag)
  {
  }

  /** The tax rules group id, unity and MPN setters store their argument
      as given. */
  lemma ScalarSettersRoundTrip(rules: ValueObjects.Constraints, c: UpdateProductCommand, number: int, text: string)
    ensures Apply(rules, c, SetTaxRulesGroupId(number)).command.taxRulesGroupId == Some(number)
    ensures Apply(rules, c, SetUnity(text)).command.unity == Some(text)
    ensures Apply(rules, c, SetMpn(text)).command.mpn == Some(text)
  {
  }

  /** Plain setters never throw. */
  lemma PlainSettersNeverThrow(rules: ValueObjects.Constraints, s: Setter)
    requires IsPlain(s)
    ensures Accepts(rules, s)
  {
  }

  /** The price and ecotax setters store the decimal parsed from the text;
      text that does not parse throws and leaves the command as it was. */
  lemma PriceEcotaxSettersStoreParsedAmount(rules: ValueObjects.Constraints, c: UpdateProductCommand, text: string)
    ensures var r := Apply(rules, c, SetPrice(text)); var d := rules.parseDecimal(text);
      (d.Some? ==> r.command.price == d) && (d.None? ==> r == Step(c, Some(ValueObjects.InvalidDecimal)))
    ensures var r := Apply(rules, c, SetEcotax(text)); var d := rules.parseDecimal(text);
      (d.Some? ==> r.command.ecotax == d) && (d.None? ==> r == Step(c, Some(ValueObjects.InvalidDecimal)))
  {
  }

  /** The wholesale price and unit price setters store the decimal parsed
      from the text; text that does not parse throws and leaves the command
      as it was. */
  lemma WholesaleUnitPriceSettersStoreParsedAmount(rules: ValueObjects.Constraints, c: UpdateProductCommand, text: string)
    ensures var r := Apply(rules, c, SetWholesalePrice(text)); var d := rules.parseDecimal(text);
      (d.Some? ==> r.command.wholesalePrice == d) && (d.None? ==> r == Step(c, Some(ValueObjects.InvalidDecimal)))
    ensures var r := Apply(rules, c, SetUnitPrice(text)); var d := rules.parseDecimal(text);
      (d.Some? ==> r.command.unitPrice == d) && (d.None? ==> r == Step(c, Some(ValueObjects.InvalidDecimal)))
  {
  }

  /** The visibility and condition setters store the value object built
      from the text; rejected text throws the object's constraint exception
      and leaves the command as it was. */
  lemma VisibilityConditionSettersStoreValueObject(rules: ValueObjects.Constraints, c: UpdateProductCommand, text: string)
    ensures var r := Apply(rules, c, SetVisibility(text));
      (rules.isVisibility(text) ==> r.command.visibility == Some(ValueObjects.ProductVisibility(text)))
      && (!rules.isVisibility(text) ==> r == Step(c, Some(ValueObjects.VisibilityConstraint)))
    ensures var r := Apply(rules, c, SetCondition(text));
      (rules.isCondition(text) ==> r.command.condition == Some(ValueObjects.ProductCondition(text)))
      && (!rules.isCondition(text) ==> r == Step(c, Some(ValueObjects.ConditionConstraint)))
  {
  }

  /** `setRedirectOption` stores the redirect option built from the type and
      the target; a rejected pair throws and leaves the command as it was. */
  lemma RedirectOptionSetterStoresValueObject(rules: ValueObjects.Constraints, c: UpdateProductCommand, text: string, target: int)
    ensures var r := Apply(rules, c, SetRedirectOption(text, target));
      (rules.isRedirect(text, target) ==> r.command.redirectOption == Some(ValueObjects.RedirectOption(text, target)))
      && (!rules.isRedirect(text, target) ==> r == Step(c, Some(ValueObjects.RedirectConstraint)))
  {
  }

  /** The ISBN and UPC setters store the code object built from the text;
      rejected text throws and changes nothing. */
  lemma IsbnUpcSettersStoreValueObject(rules: ValueObjects.Constraints, c: UpdateProductCommand, text: string)
    ensures var r := Apply(rules, c, SetIsbn(text));
      (rules.isIsbn(text) ==> r.command.isbn == Some(ValueObjects.Isbn(text)))
      && (!rules.isIsbn(text) ==> r == Step(c, Some(ValueObjects.IsbnConstraint)))
    ensures var r := Apply(rules, c, SetUpc(text));
      (rules.isUpc(text) ==> r.command.upc == Some(ValueObjects.Upc(text)))
      && (!rules.isUpc(text) ==> r == Step(c, Some(ValueObjects.UpcConstraint)))
  {
  }

  /** The EAN-13 and reference setters store the object built from the
      text; rejected text throws and changes nothing. */
  lemma Ean13ReferenceSettersStoreValueObject(rules: ValueObjects.Constraints, c: UpdateProductCommand, text: string)
    ensures var r := Apply(rules, c, SetEan13(text));
      (rules.isEan13(text) ==> r.command.ean13 == Some(ValueObjects.Ean13(text)))
      && (!rules.isEan13(text) ==> r == Step(c, Some(ValueObjects.Ean13Constraint)))
    ensures var r := Apply(rules, c, SetReference(text));
      (rules.isReference(text) ==> r.command.reference == Some(ValueObjects.Reference(text)))
      && (!rules.isReference(text) ==> r == Step(c, Some(ValueObjects.ReferenceConstraint)))
  {
  }

  /** `setManufacturerId`: the sentinel id stores `NoManufacturerId`, any
      other accepted id stores `ManufacturerId(id)`, a rejected id throws
      and changes nothing. */
  lemma ManufacturerSentinel(rules: ValueObjects.Constraints, c: UpdateProductCommand, id: int)
    ensures var r := Apply(rules, c, SetManufacturerId(id));
      && ((r.thrown.None? && r.command.manufacturerId == Some(ValueObjects.NoManufacturerId))
          <==> id == ValueObjects.NoManufacturerIdValue)
      && (id != ValueObjects.NoManufacturerIdValue && rules.isManufacturerId(id)
          ==> r.thrown.None? && r.command.manufacturerId == Some(ValueObjects.ManufacturerId(id)))
      && (id != ValueObjects.NoManufacturerIdValue && !rules.isManufacturerId(id)
          ==> r == Step(c, Some(ValueObjects.ManufacturerConstraint)))
  {
  }

  /** Setting a field twice is setting it once with the second value,
      provided the second call does not throw. */
  lemma LastWriteWins(rules: ValueObjects.Constraints, c: UpdateProductCommand, first: Setter, second: Setter)
    requires FieldOf(first) == FieldOf(second)
    requires Accepts(rules, second)
    ensures Apply(rules, Apply(rules, c, first).command, second) == Apply(rules, c, second)
  {
    var f := FieldOf(second);
    var a := Apply(rules, c, first).command;
    var b := Apply(rules, a, second).command;
    var d := Apply(rules, c, second).command;
    assert SameExcept(b, d, f);
    SameExceptAndAtIsEqual(b, d, f);
  }

  /** Repeating a setter call with the same arguments changes nothing more,
      whether or not the call throws. */
  lemma SetterIdempotent(rules: ValueObjects.Constraints, c: UpdateProductCommand, s: Setter)
    ensures Apply(rules, Apply(rules, c, s).command, s) == Apply(rules, c, s)
  {
    if Accepts(rules, s) {
      LastWriteWins(rules, c, s, s);
    }
  }
}
