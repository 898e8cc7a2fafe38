# PrestaShop log grid decorator and product update command, in Dafny

This project models two pieces of the PrestaShop back office.

- **The log grid decorator** (`LogDataFactory`) wraps the grid data factory of the
  log page. It fetches the page of log rows, then rewrites two columns of every
  row. `shop_name` becomes a display label for the row's shop context ("All
  shops", a shop, a shop group, or the `---` placeholder). `language` is
  defaulted to the placeholder when it is missing or null. The total and the
  query pass through unchanged.
- **The partial product update command** (`UpdateProductCommand`) holds a
  product id, a shop constraint and twenty-six optional fields. An unset
  field (`null`) means "do not change". Fluent setters fill the fields. Some
  setters store their argument as given. Others first build a value object
  (a decimal, a visibility, an EAN-13, ...) whose constructor may throw. When
  it throws, nothing is assigned.

Modules:

| file | module | content |
|---|---|---|
| `wrappers.dfy` | `Wrappers` | `Option`, `Result` |
| `php_values.dfy` | `PhpValues` | row cell values, PHP truthiness, PHP string conversion of integers |
| `log_data_factory.dfy` | `LogDataFactory` | shop label, row rewrite, `modifyRecords`, `getData` |
| `value_objects.dfy` | `ValueObjects` | the value objects the command stores, with their acceptance rules as parameters |
| `update_product_command.dfy` | `ProductCommand` | the command state, its getters, constructor and setters |
| `fluent_chain.dfy` | `FluentChain` | chains of setter calls |

Modelling choices:

- A log row is a map from column name to `Value` (`null`, bool, int or string).
  A column the row lacks reads as `null`, as in PHP. The records array is a
  sequence of (key, row) entries, so both the keys and their order are kept.
- PHP truthiness is an explicit predicate, `PhpValues.Truthy`. `null`,
  `false`, `0`, `""` and `"0"` are falsy. Concatenation with `.` converts a
  value to a string with `PhpValues.ToStr`.
- The translator is a parameter `trans: string -> string`. It maps a message
  key of the `Admin.Global` domain to its text.
- The inner grid data factory is a parameter `inner: C -> GridData<Q>`. The
  search criteria type `C` and the query type `Q` are left abstract.
- The command is an immutable datatype. A setter call is a `Setter` value.
  `ProductCommand.Apply` returns a `Step`: the command's state after the call,
  plus the exception the call threw, if any. PHP returns `$this` from every
  setter, and `FluentChain.ApplyAll` models that chaining by threading the
  state from one call to the next.
- The value objects' own classes are not part of this model. Their acceptance
  rules are the fields of a `ValueObjects.Constraints` parameter, for example
  `isEan13` and `parseDecimal`. A constructor that accepts wraps its argument;
  one that rejects fails with that object's constraint exception.
- `NoManufacturerId::NO_MANUFACTURER_ID` is the constant
  `ValueObjects.NoManufacturerIdValue`, which is 0. `NoManufacturerId.php` is
  not part of this model.

Notes on the code as written:

- The shop branch and the shop group branch of the label come after the
  "All shops" branch and overwrite it. So a log row with a shop id and no
  group id gets the shop label even when `in_all_shop` is truthy.
  `LogDataFactory.ShopLabelOverridesAllShops` exhibits such a row.
- `??` defaults a `null` language as well as a missing one.
- The shop group label has no space before `(id :`, while the shop label has
  one. This is modelled as written.

## Model

| member | source | states |
|---|---|---|
| `LogDataFactory.ShopContextFormatted` | src/Core/Grid/Data/Factory/LogDataFactory.php:108-127 | The shop label in four disjoint cases. Shop id truthy and group id falsy gives `trans('Shop') + ' ' + shop_name + ' (id : ' + id_shop + ')'`, whatever `in_all_shop` is. Shop id falsy and group id truthy gives `trans('Shop group') + ' ' + shop_group_name + '(id : ' + id_shop_group + ')'`, whatever `in_all_shop` is. Otherwise a truthy `in_all_shop` gives `trans('All shops')` and a falsy one gives the `---` placeholder. |
| `LogDataFactory.ShopContextDependsOnFiveColumns` | src/Core/Grid/Data/Factory/LogDataFactory.php:108-127 | The label depends only on the columns `in_all_shop`, `id_shop`, `id_shop_group`, `shop_name` and `shop_group_name` of the row. |
| `LogDataFactory.ShopLabelOverridesAllShops` | src/Core/Grid/Data/Factory/LogDataFactory.php:112-119 | With the identity translator, a row with `in_all_shop` true, shop 1 named "Main" and no group is labelled "Shop Main (id : 1)", not "All shops". |
| `LogDataFactory.TransformRow` | src/Core/Grid/Data/Factory/LogDataFactory.php:93-96 | The rewritten row has the original columns plus `shop_name` and `language`. Every other column keeps its value. `shop_name` is the label computed from the incoming row, so the label uses the original `shop_name`. `language` keeps a non-null value and otherwise becomes the translated `---` placeholder. |
| `LogDataFactory.LanguageDefaultIsStable` | src/Core/Grid/Data/Factory/LogDataFactory.php:95 | Rewriting an already rewritten row leaves `language` as it is, because the placeholder is never null. |
| `LogDataFactory.ModifyRecords` | src/Core/Grid/Data/Factory/LogDataFactory.php:91-99 | The record count and the sequence of record keys are preserved. Each row is replaced by its rewritten row. |
| `LogDataFactory.GetData` | src/Core/Grid/Data/Factory/LogDataFactory.php:71-82 | The returned total and query are those of the inner factory's result. The records are the inner records with the same keys in the same order, each row rewritten. |
| `PhpValues.NatToStringDigits` | src/Core/Grid/Data/Factory/LogDataFactory.php:118 | PHP's decimal rendering of a natural number is a non-empty digit string with no leading zero, and it denotes that number. |
| `PhpValues.IntToStringRoundTrip` | src/Core/Grid/Data/Factory/LogDataFactory.php:118 | Parsing the rendering of any integer, including a negative one, gives back that integer. |
| `PhpValues.IntToStringInjective` | src/Core/Grid/Data/Factory/LogDataFactory.php:123 | `IntToString` is injective: distinct integers render as distinct strings. This says nothing about ids that arrive as strings, which are not converted. |
| `ProductCommand.New` | src/Core/Domain/Product/Command/UpdateProductCommand.php:200-204 | Construction succeeds exactly when `ProductId` accepts the integer, and fails with its constraint exception otherwise. On success the product id wraps the integer, the shop constraint is the given one, and every optional getter returns null. |
| `ProductCommand.Put` | src/Core/Domain/Product/Command/UpdateProductCommand.php:456-461 | Assigning a field changes only that field: the getter of the field returns the assigned value, and the product id, the shop constraint and every other field are unchanged. |
| `ProductCommand.Built` | src/Core/Domain/Product/Command/UpdateProductCommand.php:296-301 | A value a setter successfully builds has the type of the field it is stored in. |
| `ProductCommand.Apply` | src/Core/Domain/Product/Command/UpdateProductCommand.php:225-746 | One setter call. The product id, the shop constraint and every field other than the setter's own are unchanged. If construction succeeds, the call does not throw and the field's getter returns the built value. If it fails, the call throws the constructor's exception and the command is left exactly as it was. |
| `ProductCommand.ManufacturerIdFor` | src/Core/Domain/Product/Command/UpdateProductCommand.php:640-643 | The result is `NoManufacturerId` exactly when the id equals `NO_MANUFACTURER_ID`. Otherwise it is `ManufacturerId(id)` when that constructor accepts the id, and the manufacturer constraint exception when it does not. |
| `ProductCommand.ManufacturerSentinel` | src/Core/Domain/Product/Command/UpdateProductCommand.php:638-646 | `setManufacturerId(id)` stores `NoManufacturerId` without throwing exactly when `id == NO_MANUFACTURER_ID`. It stores `ManufacturerId(id)` for any other accepted id. For a rejected id it throws and changes nothing. |
| `ProductCommand.PlainSettersNeverThrow` | src/Core/Domain/Product/Command/UpdateProductCommand.php:235-240 | The setters that assign their argument directly never throw. |
| `ProductCommand.LocalizedTextSettersRoundTrip` | src/Core/Domain/Product/Command/UpdateProductCommand.php:446-501 | After `setLocalizedNames(m)`, `setLocalizedDescriptions(m)` or `setLocalizedShortDescriptions(m)`, the matching getter returns `m`. |
| `ProductCommand.LocalizedSeoSettersRoundTrip` | src/Core/Domain/Product/Command/UpdateProductCommand.php:225-280 | After `setLocalizedMetaTitles(m)`, `setLocalizedMetaDescriptions(m)` or `setLocalizedLinkRewrites(m)`, the matching getter returns `m`. |
| `ProductCommand.AvailabilityFlagSettersRoundTrip` | src/Core/Domain/Product/Command/UpdateProductCommand.php:366-561 | After `setAvailableForOrder(b)`, `setOnlineOnly(b)` or `setOnSale(b)`, the matching `is...()` getter returns `b`. |
| `ProductCommand.DisplayFlagSettersRoundTrip` | src/Core/Domain/Product/Command/UpdateProductCommand.php:566-621 | After `setShowPrice(b)`, `showPrice()` returns `b`. After `setShowCondition(b)`, `showCondition()` returns `b`. |
| `ProductCommand.ScalarSettersRoundTrip` | src/Core/Domain/Product/Command/UpdateProductCommand.php:346-726 | `setTaxRulesGroupId(n)`, `setUnity(t)` and `setMpn(t)` store their argument, and the matching getter returns it. |
| `ProductCommand.PriceEcotaxSettersStoreParsedAmount` | src/Core/Domain/Product/Command/UpdateProductCommand.php:316-341 | `setPrice` and `setEcotax` store the decimal parsed from the text. Text that does not parse makes the call throw and leaves the command as it was. |
| `ProductCommand.WholesaleUnitPriceSettersStoreParsedAmount` | src/Core/Domain/Product/Command/UpdateProductCommand.php:396-421 | `setWholesalePrice` and `setUnitPrice` store the decimal parsed from the text. Text that does not parse makes the call throw and leaves the command as it was. |
| `ProductCommand.VisibilityConditionSettersStoreValueObject` | src/Core/Domain/Product/Command/UpdateProductCommand.php:524-601 | `setVisibility` and `setCondition` store the value object built from the text. Rejected text makes the call throw that object's constraint exception and leaves the command as it was. |
| `ProductCommand.RedirectOptionSetterStoresValueObject` | src/Core/Domain/Product/Command/UpdateProductCommand.php:296-301 | `setRedirectOption(type, target)` stores the redirect option built from both arguments. A rejected pair makes the call throw and leaves the command as it was. |
| `ProductCommand.IsbnUpcSettersStoreValueObject` | src/Core/Domain/Product/Command/UpdateProductCommand.php:661-686 | `setIsbn` and `setUpc` store the code object built from the text. Rejected text makes the call throw and changes nothing. |
| `ProductCommand.Ean13ReferenceSettersStoreValueObject` | src/Core/Domain/Product/Command/UpdateProductCommand.php:701-746 | `setEan13` and `setReference` store the object built from the text. Rejected text makes the call throw and changes nothing. |
| `ProductCommand.LastWriteWins` | src/Core/Domain/Product/Command/UpdateProductCommand.php:456-461 | Two calls to setters of the same field equal the second call alone, whenever the second call does not throw. |
| `ProductCommand.SetterIdempotent` | src/Core/Domain/Product/Command/UpdateProductCommand.php:456-461 | Repeating a setter call with the same arguments has the same effect as making it once, whether or not it throws. |
| `FluentChain.ApplyAll` | src/Core/Domain/Product/Command/UpdateProductCommand.php:235-240 | A chain of setter calls on one command never changes the product id or the shop constraint. Fields that no call writes keep their value. The chain throws exactly when one of its calls is rejected: a chain of accepted calls completes without an exception, and a chain containing a rejected call throws. |
| `FluentChain.FirstRejectionEndsChain` | src/Core/Domain/Product/Command/UpdateProductCommand.php:315-320 | When `calls[k]` is the first rejected call, the chain throws that call's exception, and the command is left as the accepted calls before it left it. The calls after it have no effect. |
| `FluentChain.GetterAfterRejection` | src/Core/Domain/Product/Command/UpdateProductCommand.php:315-320 | After a chain whose first rejected call is `calls[k]`, the chain has thrown that call's exception. Every getter returns the value stored by the last setter of its field before `calls[k]`, or the value the command held before the chain. |
| `FluentChain.GetterReturnsLastWrite` | src/Core/Domain/Product/Command/UpdateProductCommand.php:222-746 | After a chain that does not throw, every getter returns the value stored by the last setter of its field, or the value the command held before the chain. |
| `FluentChain.ShowFlagsAreLastSet` | src/Core/Domain/Product/Command/UpdateProductCommand.php:566-621 | On a freshly constructed command, after a chain that does not throw, `showPrice()` and `showCondition()` return the flag last passed to their setter, or null when the chain never called it. |

## Left out

- `RemoveAllCustomizationFieldsFromProductHandler` is left out. It only delegates to a product provider, a customization field deleter and a product updater. None of these are part of this model, and they have persistence side effects.
- The validation rules of the value objects are left out. This covers `ProductId`, `ManufacturerId`, `ProductVisibility`, `ProductCondition`, `RedirectOption`, `Isbn`, `Upc`, `Ean13` and `Reference`. Their classes are not part of this model, so each rule is a parameter.
- `DecimalNumber` parsing and precision are left out. They come from a separate library, so the parser is a parameter and its result is an abstract coefficient and exponent.
- The translator's locale handling and message parameters are left out. The translator is a plain function of the message key.
- The `GridData` and `RecordCollection` wrapper classes are modelled as one `GridData` datatype. The inner factory's Doctrine query is an abstract value that is only passed through.
- The PHP warning raised by reading a missing column is left out. Only its value, `null`, is modelled.
- Float and array cell values are left out, because log rows hold integers, strings and nulls. The order of columns inside a row is also left out.
- Object identity of the fluent `return $this` is not expressible on immutable values. The model threads the command's state from one call to the next instead.
- `ShopConstraint`'s own rules are left out. The command only stores the value it was given.
- `FluentChain.ShowFlagsAreLastSet`: only speaks of chains that do not throw. For a throwing chain, `FluentChain.GetterAfterRejection` gives every getter's value, the two flags included.
- `FluentChain.GetterReturnsLastWrite`: only speaks of chains that do not throw. `FluentChain.GetterAfterRejection` covers chains that throw.
- `LocalizedStrings` is a map from language id to text. It does not keep the PHP array's entry order or any string keys, so the localized getters return the same entries, not necessarily the same array.
