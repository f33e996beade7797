# cleanURI-site: tiered pricing and the site-plugin framework

This project models the core of the cleanURI site-plugin library in Dafny:

- **Tiered pricing.** It covers the `Pricing.Discount` record and its validation, and the
  immutable `Pricing` value with its queries: `streamDiscounts`, `getUnitPrice`,
  `findDiscountedUnitPrice`, `calculateTotalPrice` and `areDiscountsSane`. It also covers
  the mutable `Pricing.Builder`, which keys discounts by quantity with the last write
  winning, and the JSON mapping of the `unit_price` and `discounts` properties onto the
  getters and the builder's setters.
- **Site discovery.** It covers `SiteLoader`, the lazy cache of the sites found by the
  service provider mechanism, and the reporter that receives each site's descriptor.
- **Value types and builders.** It covers `SiteDescriptor` and `ProductDescription`, each
  with its fluent builder, and `AbstractSiteBase`, which stores a descriptor and by default
  offers no canonizer and no extractor.

Modules:

- `Wrappers` (`wrappers.dfy`): `Option`, `Result`, `Outcome` and the `Uri` string type.
  A Java `null` or an empty `Optional` is `None`. A thrown exception is a `Failure`, or a
  `Fail` outcome for a method that returns nothing.
- `PricingData` (`pricing.dfy`): discounts, the `Pricing` value and its queries,
  `Pricing.Builder`.
- `PricingJson` (`pricing_json.dfy`): serialization and deserialization of a pricing at the
  level of its properties.
- `SiteDescriptors` (`site_descriptor.dfy`), `ProductDescriptions`
  (`product_description.dfy`), `Sites` (`sites.dfy`) and `SiteLoading`
  (`site_loader.dfy`).

How the Java types are represented:

- Prices are exact `real`s. A `BigDecimal` is an arbitrary-precision decimal; its scale is
  not modelled.
- A `Pricing` is the subset type of its two final fields that the private constructor
  establishes:
  - the discount list is non-empty;
  - it is strictly ascending by quantity;
  - the unit price is that of the quantity-1 entry, if there is one.
- The builders are classes whose fields the setters update in place.
- `Pricing.Builder.build()` sorts the map's entries with a selection loop. It is proved to
  yield the unique ascending list of the map's entries.
- The `ServiceLoader` is a `Provider` object. Its n-th enumeration yields `enumerate(n)`,
  a function supplied by the caller.
- The `Consumer<SiteDescriptor>` is a `Reporter` object with a ghost log of what it
  accepted.

## Model

| member | source | states |
|---|---|---|
| PricingData.NewDiscount | src/main/java/com/penguineering/cleanuri/site/data/Pricing.java:36-44 | A discount is made exactly when the quantity is set and positive and the price is set and non-negative. A missing value is a missing-value error. A non-positive quantity or a negative price is an invalid-argument error. The quantity is checked before the price. |
| PricingData.Filter | src/main/java/com/penguineering/cleanuri/site/data/Pricing.java:76-77 | `stream().filter` keeps exactly the elements that pass, and keeps an ascending list ascending. |
| PricingData.AscendingUnique | src/main/java/com/penguineering/cleanuri/site/data/Pricing.java:61-63 | Two strictly ascending lists with the same elements are equal, so the sorted list of a set of entries is unique. |
| PricingData.StreamDiscounts | src/main/java/com/penguineering/cleanuri/site/data/Pricing.java:75-78 | `streamDiscounts()` holds exactly the entries whose quantity is not 1, in ascending order. It is the list without its head when there is a base price, and the whole list otherwise. |
| PricingData.GetUnitPrice | src/main/java/com/penguineering/cleanuri/site/data/Pricing.java:85-88 | `getUnitPrice()`, over the field set at lines 65-66, is present exactly when a quantity-1 entry exists, and then it is that entry's price, whatever the other tiers are. |
| PricingData.FindDiscountedUnitPrice | src/main/java/com/penguineering/cleanuri/site/data/Pricing.java:98-103 | The result is empty exactly when the quantity is below every tier, so any quantity up to 0 gives nothing. Otherwise it is the price of the tier with the largest quantity not above the argument. |
| PricingData.FindDiscountedAt | src/main/java/com/penguineering/cleanuri/site/data/Pricing.java:98-103 | If entry i is the last one whose quantity does not exceed q, the result for q is entry i's price. |
| PricingData.Times | src/main/java/com/penguineering/cleanuri/site/data/Pricing.java:115 | The total for at least one piece at a non-negative price is never below one piece's price. It equals that price exactly when the quantity is 1 or the price is zero. |
| PricingData.CalculateTotalPrice | src/main/java/com/penguineering/cleanuri/site/data/Pricing.java:113-116 | The total is the discounted unit price times the quantity when there is one, and empty otherwise. A total exists only for a quantity of at least 1 and is never negative. |
| PricingData.SentinelAbsorbs | src/main/java/com/penguineering/cleanuri/site/data/Pricing.java:126-127 | Once the reduction holds the -1 sentinel it keeps it, because no price is negative. |
| PricingData.ReduceDetectsRise | src/main/java/com/penguineering/cleanuri/site/data/Pricing.java:124-129 | The sentinel reduction over non-negative prices avoids the sentinel exactly when every price is strictly below the one before it. |
| PricingData.AreDiscountsSane | src/main/java/com/penguineering/cleanuri/site/data/Pricing.java:123-130 | `areDiscountsSane()` is true exactly when every adjacent pair of the full ascending list, base price included, strictly drops in price. |
| PricingData.DecreasingAcross | src/main/java/com/penguineering/cleanuri/site/data/Pricing.java:119 | Adjacent drops give a drop, or equality, between any two entries. |
| PricingData.SaneDiscountsNeverRaiseUnitPrice | src/main/java/com/penguineering/cleanuri/site/data/Pricing.java:119-130 | With sane discounts, buying more never raises the discounted unit price. |
| PricingData.TieredExampleUnitPrices | src/test/java/com/penguineering/cleanuri/site/data/TestPricing.java:19-46 | For tiers 1:10.00, 5:9.00, 10:8.50 and 20:7.00, the unit prices at 3, 5, 15 and 25 pieces are 10.00, 9.00, 8.50 and 7.00. At 0 pieces there is none. |
| PricingData.TieredExampleTotalAndSanity | src/test/java/com/penguineering/cleanuri/site/data/TestPricing.java:103-129 | Ten pieces of the tiered example cost 85.00, and its discounts are sane. |
| PricingData.RisingExampleIsNotSane | src/test/java/com/penguineering/cleanuri/site/data/TestPricing.java:131-171 | Tiers 5:9.00 and 10:10.00 are not sane. There is no price, and no total, for 4 pieces. |
| PricingData.Put | src/main/java/com/penguineering/cleanuri/site/data/Pricing.java:142-145 | `put` succeeds exactly when the record can be made, with the record's error otherwise. On success it adds exactly that quantity, stores the new record under it, and leaves every other key as it was. |
| PricingData.PutAll | src/main/java/com/penguineering/cleanuri/site/data/Pricing.java:148-151 | Putting a list removes no key and keeps every key the quantity of its entry. The list's last entry always ends up stored under its quantity. |
| PricingData.PutAllKeys | src/main/java/com/penguineering/cleanuri/site/data/Pricing.java:148-151 | Putting a list adds exactly the list's quantities as keys. |
| PricingData.PutAllKeepsDistinct | src/main/java/com/penguineering/cleanuri/site/data/Pricing.java:148-151 | Putting an ascending list keeps every one of its entries under its quantity. |
| PricingData.PutAllLastWins | src/main/java/com/penguineering/cleanuri/site/data/Pricing.java:148-151 | In any list, in any order and with repeated quantities, the last entry for a quantity is the one stored under it. |
| PricingData.PutAllOthers | src/main/java/com/penguineering/cleanuri/site/data/Pricing.java:148-151 | A quantity the list does not name keeps its old entry, or stays absent. |
| PricingData.PutAllPutCommute | src/main/java/com/penguineering/cleanuri/site/data/Pricing.java:142-151 | An entry whose quantity the list does not name gives the same map whether it is put before the list or after it. |
| PricingData.EnumerationUnique | src/main/java/com/penguineering/cleanuri/site/data/Pricing.java:61-63 | Two ascending lists that each list a map's entries once are equal. |
| PricingData.EnumerationBasePrice | src/main/java/com/penguineering/cleanuri/site/data/Pricing.java:65-66 | The price of the map's quantity-1 entry, when there is one, is the head of the sorted list, so it is the pricing's unit price. |
| PricingData.LeastOf | src/main/java/com/penguineering/cleanuri/site/data/Pricing.java:62 | A non-empty set of quantities has a least element. This is the next element of the sort. |
| PricingData.TakeLeast | src/main/java/com/penguineering/cleanuri/site/data/Pricing.java:61-63 | Moving the least pending entry to the end of the sorted prefix keeps the prefix sorted, drawn from the map, and below every pending quantity. |
| PricingData.Builder.constructor | src/main/java/com/penguineering/cleanuri/site/data/Pricing.java:134 | A new builder holds no discounts. |
| PricingData.Builder.AddDiscount | src/main/java/com/penguineering/cleanuri/site/data/Pricing.java:142-145 | The map becomes the `Put` result, so the last write for a quantity wins. On the record's exception the builder is unchanged. Every key stays the quantity of its entry. |
| PricingData.Builder.SetUnitPrice | src/main/java/com/penguineering/cleanuri/site/data/Pricing.java:136-140 | `setUnitPrice(p)` has exactly the effect and the outcome of `addDiscount(1, p)`. |
| PricingData.Builder.SetJsonDiscounts | src/main/java/com/penguineering/cleanuri/site/data/Pricing.java:147-151 | Every record of the list is put in list order, with none rejected. |
| PricingData.Builder.Build | src/main/java/com/penguineering/cleanuri/site/data/Pricing.java:153-157 | `build()`, with the constructor it calls (lines 60-67), is empty exactly when the map is empty, even when only a unit price was set otherwise. The built list holds the map's entries, one each, strictly ascending by quantity. The unit price is the quantity-1 entry's price. |
| PricingData.BuildTieredExample | src/test/java/com/penguineering/cleanuri/site/data/TestPricing.java:113-123 | A unit price followed by tiers added out of order builds the sorted tiered example. |
| PricingData.BuildUnitPriceOnly | src/test/java/com/penguineering/cleanuri/site/data/TestPricing.java:76-93 | A unit price alone builds a pricing with that unit price and no further discounts. |
| PricingData.BuildAfterNegativeQuantity | src/test/java/com/penguineering/cleanuri/site/data/TestPricing.java:96-101 | A negative quantity is an invalid-argument error and leaves nothing to build. |
| PricingJson.DecodeDiscounts | src/main/java/com/penguineering/cleanuri/site/data/Pricing.java:33-44 | The "discounts" array binds exactly when every element makes a valid record, and then element by element. Otherwise it fails with the first element's error. |
| PricingJson.ApplyProperty | src/main/java/com/penguineering/cleanuri/site/data/Pricing.java:136-151 | "unit_price" acts as `setUnitPrice`, and "discounts" as `setJsonDiscounts` on the bound records. |
| PricingJson.DecodeProperties | src/main/java/com/penguineering/cleanuri/site/data/Pricing.java:136-151 | Applying the properties in order never removes an entry and keeps every key the quantity of its entry. |
| PricingJson.NullUnitPriceAborts | src/main/java/com/penguineering/cleanuri/site/data/Pricing.java:136-140 | A `"unit_price": null` anywhere in an object makes reading it fail. |
| PricingJson.FromJson | src/main/java/com/penguineering/cleanuri/site/data/Pricing.java:132-161 | Deserialization applies the properties in order to a fresh builder. It fails with the first exception. It yields `null` exactly when the map ends up empty, and otherwise the pricing enumerating the map. |
| PricingJson.EncodeDiscounts | src/main/java/com/penguineering/cleanuri/site/data/Pricing.java:33-34 | Every record of the list is written as an element with both of its fields. |
| PricingJson.ToJsonAsWritten | src/main/java/com/penguineering/cleanuri/site/data/Pricing.java:74-88 | The source's serialization writes every tier of the pricing. It writes `"unit_price": null` exactly when there is no quantity-1 tier. |
| PricingJson.ToJson | src/main/java/com/penguineering/cleanuri/site/data/Pricing.java:74-88 | The corrected serialization never writes a `null` unit price, and it writes exactly as many records as the pricing has tiers. |
| PricingJson.ToJsonWritesEveryTier | src/main/java/com/penguineering/cleanuri/site/data/Pricing.java:74-88 | Every tier of the pricing appears in what `ToJson` writes: the quantity-1 tier as "unit_price", any other in the "discounts" array. With the record count in `ToJson`'s contract, no tier is lost and none is invented. |
| PricingJson.DiscountsRoundTrip | src/main/java/com/penguineering/cleanuri/site/data/Pricing.java:33-34 | A "discounts" array written by the serializer binds back to the same records. |
| PricingJson.PutAllEnumerates | src/main/java/com/penguineering/cleanuri/site/data/Pricing.java:148-151 | Putting an ascending list into an empty builder gives a map that the list enumerates. |
| PricingJson.EnumeratesCons | src/main/java/com/penguineering/cleanuri/site/data/Pricing.java:61-66 | An entry below every quantity of an enumerated map heads the enumeration once it is added. |
| PricingJson.DecodeToJson | src/main/java/com/penguineering/cleanuri/site/data/Pricing.java:74-88 | Decoding the serialized properties rebuilds a map that the pricing's own list enumerates. |
| PricingJson.DecodeToJsonWithBasePrice | src/main/java/com/penguineering/cleanuri/site/data/Pricing.java:136-140 | "unit_price" written after the array of discounts above 1 puts the quantity-1 entry back into the map the array built. |
| PricingJson.BasePriceHeadsStream | src/main/java/com/penguineering/cleanuri/site/data/Pricing.java:75-78 | The base-price entry followed by `streamDiscounts()` is the whole list. |
| PricingJson.JsonRoundTrip | src/main/java/com/penguineering/cleanuri/site/data/Pricing.java:74-161 | Writing a pricing and reading it back yields the same pricing. |
| PricingJson.AsWrittenRejectsMissingBasePrice | src/main/java/com/penguineering/cleanuri/site/data/Pricing.java:85-88 | As serialized by the source, a pricing without a base price writes `"unit_price": null`. Reading that fails with "Unit price cannot be null". |
| PricingJson.AsWrittenDecodesIffBasePrice | src/main/java/com/penguineering/cleanuri/site/data/Pricing.java:85-88 | What the source writes reads back exactly when the pricing has a base price. |
| PricingJson.UnitPriceFirstDecodesAlike | src/main/java/com/penguineering/cleanuri/site/data/Pricing.java:136-151 | With "unit_price" written before "discounts", the object decodes to the same map as with the corrected order. |
| PricingJson.SampleJsonDecodes | src/test/java/com/penguineering/cleanuri/site/data/TestPricing.java:221-247 | The object with unit price 10.00 and discount 5:9.00 decodes to exactly those two entries, enumerated in ascending order. |
| PricingJson.MissingQuantityAborts | src/main/java/com/penguineering/cleanuri/site/data/Pricing.java:37 | An array element without a quantity aborts deserialization with "Quantity cannot be null", whatever was set before it. |
| SiteDescriptors.Builder.constructor | src/main/java/com/penguineering/cleanuri/site/SiteDescriptor.java:64-72 | The label is the constructor's argument and is final. Every optional field starts unset. |
| SiteDescriptors.Builder.Description | src/main/java/com/penguineering/cleanuri/site/SiteDescriptor.java:74-77 | It sets the description only, and returns the same builder. |
| SiteDescriptors.Builder.Site | src/main/java/com/penguineering/cleanuri/site/SiteDescriptor.java:79-82 | It sets the site URI only, and returns the same builder. |
| SiteDescriptors.Builder.Author | src/main/java/com/penguineering/cleanuri/site/SiteDescriptor.java:84-87 | It sets the author only, and returns the same builder. |
| SiteDescriptors.Builder.License | src/main/java/com/penguineering/cleanuri/site/SiteDescriptor.java:89-92 | It sets the license only, and returns the same builder. |
| SiteDescriptors.Builder.Build | src/main/java/com/penguineering/cleanuri/site/SiteDescriptor.java:32-58 | `build()` always succeeds. The descriptor's getters answer with the builder's label and its current optional fields, unset ones as empty. |
| SiteDescriptors.SnapshotOnBuild | src/main/java/com/penguineering/cleanuri/site/SiteDescriptor.java:26-38 | A built descriptor is unaffected by later setter calls. The next build shows exactly the changed field. |
| SiteDescriptors.ExampleDescriptor | src/main/java/com/penguineering/cleanuri/site/SiteDescriptor.java:12-17 | The documented builder chain yields a descriptor with each given value. |
| SiteDescriptors.LastWriteWins | src/main/java/com/penguineering/cleanuri/site/SiteDescriptor.java:74-77 | A field set twice keeps the second value, and setting `null` clears it. |
| ProductDescriptions.Builder.constructor | src/main/java/com/penguineering/cleanuri/site/data/ProductDescription.java:48-51 | A new builder has every field unset. |
| ProductDescriptions.Builder.SetId | src/main/java/com/penguineering/cleanuri/site/data/ProductDescription.java:53-56 | It sets the id only, and returns the same builder. |
| ProductDescriptions.Builder.SetName | src/main/java/com/penguineering/cleanuri/site/data/ProductDescription.java:58-61 | It sets the name only, and returns the same builder. |
| ProductDescriptions.Builder.SetImage | src/main/java/com/penguineering/cleanuri/site/data/ProductDescription.java:63-66 | It sets the image only, and returns the same builder. |
| ProductDescriptions.Builder.Build | src/main/java/com/penguineering/cleanuri/site/data/ProductDescription.java:68-72 | `build()` is empty exactly when id, name and image are all unset. Otherwise the getters answer with the builder's fields. |
| ProductDescriptions.OnlyNameSet | src/main/java/com/penguineering/cleanuri/site/data/ProductDescription.java:13 | One field set is enough for a description, and the others read as empty. |
| ProductDescriptions.ClearedFieldGivesNothing | src/main/java/com/penguineering/cleanuri/site/data/ProductDescription.java:53-56 | A field set and then reset to `null` counts as unset, so nothing is built. |
| ProductDescriptions.SnapshotOnBuild | src/main/java/com/penguineering/cleanuri/site/data/ProductDescription.java:26-34 | A built description is unaffected by a later setter call. The next build is empty exactly when id, name and the new image are all unset; otherwise it differs from the earlier one in the image alone. |
| Sites.NewSiteBase | src/main/java/com/penguineering/cleanuri/site/AbstractSiteBase.java:51-58 | `getSiteDescriptor()` returns exactly the descriptor given to the constructor. |
| Sites.GetSiteDescriptor | src/main/java/com/penguineering/cleanuri/site/AbstractSiteBase.java:55-58 | `getSiteDescriptor()` returns the descriptor the site was constructed with. |
| Sites.NewCanonizer | src/main/java/com/penguineering/cleanuri/site/AbstractSiteBase.java:63-66 | The default `newCanonizer` offers nothing, for every site and URI. |
| Sites.NewExtractor | src/main/java/com/penguineering/cleanuri/site/AbstractSiteBase.java:68-71 | The default `newExtractor` offers nothing, for every site and URI. |
| SiteLoading.Provider.Spliterator | src/main/java/com/penguineering/cleanuri/site/SiteLoader.java:78 | Each enumeration yields the provider's next listing and is counted. |
| SiteLoading.Reporter.Accept | src/main/java/com/penguineering/cleanuri/site/SiteLoader.java:79 | The reporter receives exactly the given descriptor, after those before it. |
| SiteLoading.SiteLoader.constructor | src/main/java/com/penguineering/cleanuri/site/SiteLoader.java:60-63 | A new loader is uncached. It keeps the given provider, and keeps the given reporter or a fresh no-operation one in place of `null`. |
| SiteLoading.SiteLoader.FindSitesOnClasspath | src/main/java/com/penguineering/cleanuri/site/SiteLoader.java:76-83 | Uncached, it enumerates the provider once, reports every site's descriptor once in order, and returns and caches that list. Cached, it returns the cached list and touches neither provider nor reporter. Afterwards the cache holds the returned list. |
| SiteLoading.SiteLoader.ClearCache | src/main/java/com/penguineering/cleanuri/site/SiteLoader.java:91-93 | It returns the loader to the uncached state. |
| SiteLoading.NewDefaultSiteLoader | src/main/java/com/penguineering/cleanuri/site/SiteLoader.java:33-35 | The constructor without a reporter makes an uncached loader with a fresh no-operation reporter. |
| SiteLoading.CachedCallsShareOneList | src/main/java/com/penguineering/cleanuri/site/SiteLoader.java:77-82 | Two calls in a row return the same list. At most the first enumerates and reports. |
| SiteLoading.ClearCacheReloads | src/main/java/com/penguineering/cleanuri/site/SiteLoader.java:91-93 | After clearing, the next call enumerates afresh, reports the whole new list and caches it. |
| SiteLoading.SingleSiteFound | src/test/java/com/penguineering/cleanuri/site/TestSiteLoader.java:60-73 | With one registered site, the call returns just that site and reports its descriptor once. |
| SiteLoading.SingleSiteAfterClear | src/test/java/com/penguineering/cleanuri/site/TestSiteLoader.java:75-91 | Find, clear and find again returns the single site both times, with two enumerations. |

## Left out

- Jackson itself is not modelled: its annotations, the JSON text, number syntax and property names. A pricing object is the list of its properties in the order the parser meets them.
- The serialized property order (discounts before unit price) is an assumption about Jackson's defaults. `UnitPriceFirstDecodesAlike` proves that the other order decodes to the same map, because `streamDiscounts()` never holds a quantity-1 entry.
- A JSON `null` for "discounts" and a `null` element inside that array are not modelled. Both throw a `NullPointerException` in `setJsonDiscounts`.
- `BigDecimal` scale is not modelled (10.00 and 10.0 are the same price), and neither are the scale rules of `multiply`.
- The `ServiceLoader` and META-INF/services discovery are foreign runtime mechanisms. They are replaced by a `Provider` whose enumerations are a parameter.
- SiteLoading.SiteLoader.FindSitesOnClasspath: an enumeration that throws part-way is not modelled. In the source, the descriptors already reported stay reported and `sites` stays `null`.
- `synchronized` on `findSitesOnClasspath` and `clearCache` is not modelled. The cache is modelled sequentially.
- The `Site`, `Canonizer`, `Extractor` and `ExceptionPassing` interfaces are not modelled. `canProcessURI` is abstract in `AbstractSiteBase`. Sites are base sites holding a descriptor; canonizers and extractors are placeholders.
- `java.net.URI` parsing is not modelled. URIs are opaque strings.
- SiteLoading.SiteLoader.FindSitesOnClasspath: the cached list is modelled as a value, so reference identity of the returned `List` is shown only as "the same value, with no new enumeration". The list's immutability (`toList()`) is implicit in values.
- SiteLoading.Reporter: the no-operation consumer is a reporter whose log nobody reads. What a caller's consumer does with a descriptor is outside the model.
- PricingData.FindDiscountedUnitPrice: a `null` quantity, which throws a `NullPointerException` in `compareTo`, is not modelled. The quantity is an `int`.
- SiteDescriptors.Builder.constructor: a `null` label is not modelled. The label is a string.
- The fluent `return this` of `Pricing.Builder`'s setters is not modelled. The setters return the outcome instead, and an exception leaves the builder unchanged.
- PricingData.Builder.Build: the library sort of `sorted(Comparator.comparing(quantity))` is modelled by a selection loop. Its result, the unique ascending list of the entries, is the same.
- The fields' `private`/`protected` visibility and Java's `equals`/`hashCode` of records are not modelled.

## Findings

| source | as written | input that shows it | evidently intended | confidence | as-written member | corrected member |
|---|---|---|---|---|---|---|
| src/main/java/com/penguineering/cleanuri/site/data/Pricing.java:85-88 | `getUnitPrice()` is serialized under "unit_price"; with `Jdk8Module` an empty `Optional` is written as `null`. On reading, `setUnitPrice(null)` makes `new Discount(1, null)`, which throws "Unit price cannot be null". | a pricing with the single tier 5:9.00 and no base price | "unit_price" is optional: a pricing without a base price is written without it and reads back unchanged | medium; depends on Jackson's default inclusion of empty optionals; not executed | PricingJson.AsWrittenRejectsMissingBasePrice | PricingJson.JsonRoundTrip |
