/** The JSON mapping of `Pricing` at the level of its properties: serialization through
    the annotated getters `streamDiscounts()` ("discounts") and `getUnitPrice()`
    ("unit_price"), and deserialization through `Pricing.Builder` with the setters named
    by `@JsonSetter` and `buildForDeserialization()` as the build method.

    A JSON object is the list of its properties in the order the parser meets them, since
    the builder's setters run in that order. Number syntax, whitespace and property names
    are not modelled; a JSON `null` or a missing field is `None`. */
module PricingJson {
  import opened Wrappers
  import opened PricingData

  /** One element of the "discounts" array: the `quantity` and `unit_price` fields handed
      to the `@JsonCreator` of `Discount`. */
  datatype DiscountJson = DiscountJson(quantity: Option<int>, unitPrice: Option<real>)

  /** A property of a pricing object. `UnitPrice(None)` is `"unit_price": null`. */
  datatype Property = UnitPrice(price: Option<real>) | Discounts(entries: seq<DiscountJson>)

  type PricingObject = seq<Property>

  /** The `Discount` record the creator makes of one array element, or its exception. */
  function Created(entry: DiscountJson): Result<Discount, Error> {
    NewDiscount(entry.quantity, entry.unitPrice)
  }

  /** The array of discounts as Jackson binds it to a `List<Discount>`: every element made
      a record in order; the first rejected element aborts the whole object. */
  function DecodeDiscounts(entries: seq<DiscountJson>): (r: Result<seq<Discount>, Error>)
    ensures r.Success? <==> forall i :: 0 <= i < |entries| ==> Created(entries[i]).Success?
    ensures r.Success? ==> |r.value| == |entries| &&
                           forall i :: 0 <= i < |entries| ==> Created(entries[i]) == Success(r.value[i])
    ensures r.Failure? ==> exists i :: 0 <= i < |entries| && Created(entries[i]) == Failure(r.error) &&
                                       forall k :: 0 <= k < i ==> Created(entries[k]).Success?
    decreases |entries|
  {
    if entries == [] then Success([])
    else
      var rest := DecodeDiscounts(entries[1..]);
      assert forall i :: 1 <= i < |entries| ==> entries[1..][i - 1] == entries[i];
      match Created(entries[0])
      case Failure(e) => Failure(e)
      case Success(d) =>
        match rest
        case Failure(e) =>
          assert exists i :: 0 <= i < |entries| && Created(entries[i]) == Failure(e) &&
                             forall k :: 0 <= k < i ==> Created(entries[k]).Success? by {
            var i :| 0 <= i < |entries[1..]| && Created(entries[1..][i]) == Failure(e) &&
                     forall k :: 0 <= k < i ==> Created(entries[1..][k]).Success?;
            assert Created(entries[i + 1]) == Failure(e);
            forall k | 0 <= k < i + 1 ensures Created(entries[k]).Success? {
              if k > 0 {
                assert entries[k] == entries[1..][k - 1];
              }
            }
          }
          Failure(e)
        case Success(ds) => Success([d] + ds)
  }

  /** What one property does to the builder's map: `setUnitPrice` for "unit_price", and
      for "discounts" the array bound to records and handed to `setJsonDiscounts`. */
  function ApplyProperty(m: map<int, Discount>, property: Property): (r: Result<map<int, Discount>, Error>)
    ensures property.UnitPrice? ==> r == Put(m, Some(1), property.price)
    ensures property.Discounts? ==>
              (r.Success? <==> forall i :: 0 <= i < |property.entries| ==> Created(property.entries[i]).Success?)
    ensures property.Discounts? && r.Success? ==> r.value == PutAll(m, DecodeDiscounts(property.entries).value)
    ensures property.Discounts? && r.Failure? ==> r.error == DecodeDiscounts(property.entries).error
    ensures r.Success? && KeyedByQuantity(m) ==> KeyedByQuantity(r.value)
    ensures r.Success? ==> m.Keys <= r.value.Keys
  {
    match property
    case UnitPrice(price) => Put(m, Some(1), price)
    case Discounts(entries) =>
      match DecodeDiscounts(entries)
      case Failure(e) => Failure(e)
      case Success(ds) => Success(PutAll(m, ds))
  }

  /** The builder's map after the remaining properties are applied in order, starting from
      `m`; the first exception aborts. */
  function DecodeProperties(m: map<int, Discount>, properties: PricingObject): (r: Result<map<int, Discount>, Error>)
    ensures r.Success? && KeyedByQuantity(m) ==> KeyedByQuantity(r.value)
    ensures r.Success? ==> m.Keys <= r.value.Keys
    decreases |properties|
  {
    if properties == [] then Success(m)
    else
      match ApplyProperty(m, properties[0])
      case Failure(e) => Failure(e)
      case Success(next) => DecodeProperties(next, properties[1..])
  }

  /** A `"unit_price": null` anywhere in the object makes reading it fail: either an
      earlier property already threw, or `setUnitPrice(null)` does. */
  lemma {:induction false} NullUnitPriceAborts(m: map<int, Discount>, properties: PricingObject, i: int)
    requires 0 <= i < |properties| && properties[i] == UnitPrice(None)
    ensures DecodeProperties(m, properties).Failure?
    decreases i
  {
    if i > 0 {
      var next := ApplyProperty(m, properties[0]);
      if next.Success? {
        assert properties[1..][i - 1] == properties[i];
        NullUnitPriceAborts(next.value, properties[1..], i - 1);
      }
    }
  }

  /** `r` is what `buildForDeserialization()` returns for the map `m`: `null` when the map
      is empty, otherwise the pricing listing its entries in ascending order. */
  ghost predicate BuiltFrom(r: Option<Pricing>, m: map<int, Discount>) {
    && (r.None? <==> m == map[])
    && (r.Some? ==> Enumerates(r.value.discounts, m))
  }

  /** `ObjectMapper.readValue(json, Pricing.class)`: a fresh builder, one setter call per
      property, then `buildForDeserialization()`. A `Failure` is the exception that aborts
      the parse; `Success(None)` is a `null` result. */
  method FromJson(json: PricingObject) returns (r: Result<Option<Pricing>, Error>)
    ensures DecodeProperties(map[], json).Failure? ==> r == Failure(DecodeProperties(map[], json).error)
    ensures DecodeProperties(map[], json).Success? ==>
              r.Success? && BuiltFrom(r.value, DecodeProperties(map[], json).value)
  {
    var builder := new Builder();
    for i := 0 to |json|
      invariant builder.Valid()
      invariant DecodeProperties(map[], json) == DecodeProperties(builder.discounts, json[i..])
    {
      assert json[i..][1..] == json[i + 1..];
      match json[i]
      case UnitPrice(price) =>
        var outcome := builder.SetUnitPrice(price);
        if outcome.Fail? {
          return Failure(outcome.error);
        }
      case Discounts(entries) =>
        var list := DecodeDiscounts(entries);
        if list.Failure? {
          return Failure(list.error);
        }
        builder.SetJsonDiscounts(list.value);
    }
    var pricing := builder.Build();
    r := Success(pricing);
  }

  // ----------------------------------------------------------------------------------------
  // Serialization
  // ----------------------------------------------------------------------------------------

  /** Each record written with both of its fields. */
  function EncodeDiscounts(ds: seq<Discount>): (r: seq<DiscountJson>)
    ensures |r| == |ds|
    ensures forall d :: d in ds ==> DiscountJson(Some(d.quantity), Some(d.unitPrice)) in r
  {
    var r := seq(|ds|, i requires 0 <= i < |ds| => DiscountJson(Some(ds[i].quantity), Some(ds[i].unitPrice)));
    assert forall d :: d in ds ==> DiscountJson(Some(d.quantity), Some(d.unitPrice)) in r by {
      forall d | d in ds ensures DiscountJson(Some(d.quantity), Some(d.unitPrice)) in r {
        var i :| 0 <= i < |ds| && ds[i] == d;
        assert r[i] == DiscountJson(Some(d.quantity), Some(d.unitPrice));
      }
    }
    r
  }

  /** The entry `d` appears in the written object: the quantity-1 entry as "unit_price",
      any other inside a "discounts" array. */
  predicate Written(json: PricingObject, d: Discount) {
    if d.quantity == 1 then UnitPrice(Some(d.unitPrice)) in json
    else exists k :: 0 <= k < |json| && json[k].Discounts? && DiscountJson(Some(d.quantity), Some(d.unitPrice)) in json[k].entries
  }

  /** Serialization as the getters are annotated, with `Jdk8Module` registered: "discounts"
      from `streamDiscounts()`, then "unit_price" from `getUnitPrice()`, where an empty
      `Optional` is written as `null`. */
  function ToJsonAsWritten(p: Pricing): (r: PricingObject)
    ensures forall d :: d in p.discounts ==> Written(r, d)
    ensures UnitPrice(None) in r <==> forall d :: d in p.discounts ==> d.quantity != 1
  {
    var r := [Discounts(EncodeDiscounts(StreamDiscounts(p))), UnitPrice(GetUnitPrice(p))];
    assert r[0].Discounts? && r[0].entries == EncodeDiscounts(StreamDiscounts(p));
    r
  }

  /** Serialization with an absent unit price left out rather than written as `null`. */
  function ToJson(p: Pricing): (r: PricingObject)
    ensures UnitPrice(None) !in r
    ensures |r| >= 1 && r[0].Discounts? && |r[0].entries| + (|r| - 1) == |p.discounts|
  {
    [Discounts(EncodeDiscounts(StreamDiscounts(p)))] +
    if GetUnitPrice(p).Some? then [UnitPrice(GetUnitPrice(p))] else []
  }

  /** `ToJson` loses no tier: each one is written, the quantity-1 tier as "unit_price" and
      any other inside the "discounts" array. */
  lemma ToJsonWritesEveryTier(p: Pricing)
    ensures forall d :: d in p.discounts ==> Written(ToJson(p), d)
  {
    var r := ToJson(p);
    assert r[0].entries == EncodeDiscounts(StreamDiscounts(p));
  }

  /** The records of a "discounts" array written by the serializer are read back unchanged. */
  lemma DiscountsRoundTrip(ds: seq<Discount>)
    ensures DecodeDiscounts(EncodeDiscounts(ds)) == Success(ds)
  {
    var r := DecodeDiscounts(EncodeDiscounts(ds));
    assert r.Success?;
    assert |r.value| == |ds|;
    forall i | 0 <= i < |ds| ensures r.value[i] == ds[i] {
      assert Created(EncodeDiscounts(ds)[i]) == Success(r.value[i]);
    }
    assert r.value == ds;
  }

  /** Putting an ascending list into an empty map gives a map the list enumerates. */
  lemma PutAllEnumerates(ds: seq<Discount>)
    requires StrictlyAscending(ds)
    ensures Enumerates(ds, PutAll(map[], ds))
  {
    var m := PutAll(map[], ds);
    PutAllKeys(map[], ds);
    PutAllKeepsDistinct(map[], ds);
    forall q | q in m ensures m[q] in ds {
      assert q in Quantities(ds);
      var d :| d in ds && d.quantity == q;
    }
  }

  /** Adding an entry below every quantity of an enumerated map puts it at the head. */
  lemma EnumeratesCons(d: Discount, rest: seq<Discount>, m: map<int, Discount>)
    requires Enumerates(rest, m)
    requires forall e :: e in rest ==> d.quantity < e.quantity
    ensures Enumerates([d] + rest, m[d.quantity := d])
  {
    var ds := [d] + rest;
    forall i, j | 0 <= i < j < |ds| ensures ds[i].quantity < ds[j].quantity {
      assert ds[j] == rest[j - 1];
      if i > 0 {
        assert ds[i] == rest[i - 1];
      }
    }
    forall e | e in ds ensures e.quantity in m[d.quantity := d] && m[d.quantity := d][e.quantity] == e {
      if e != d {
        assert e in rest;
      }
    }
  }

  /** Decoding what `ToJson` writes rebuilds a map that the pricing's own list enumerates. */
  lemma DecodeToJson(p: Pricing)
    ensures DecodeProperties(map[], ToJson(p)).Success?
    ensures Enumerates(p.discounts, DecodeProperties(map[], ToJson(p)).value)
  {
    var stream := StreamDiscounts(p);
    DiscountsRoundTrip(stream);
    PutAllEnumerates(stream);
    if p.unitPrice.Some? {
      assert ToJson(p) == [Discounts(EncodeDiscounts(stream)), UnitPrice(Some(p.discounts[0].unitPrice))];
      DecodeToJsonWithBasePrice(stream, p.discounts[0]);
      BasePriceHeadsStream(p, PutAll(map[], stream));
    } else {
      assert ToJson(p) == [Discounts(EncodeDiscounts(stream))];
      assert ToJson(p)[1..] == [];
    }
  }

  /** The case of `DecodeToJson` where "unit_price" follows the discounts above 1: it puts
      the quantity-1 entry back into the map. */
  lemma DecodeToJsonWithBasePrice(stream: seq<Discount>, base: Discount)
    requires base.quantity == 1
    requires DecodeDiscounts(EncodeDiscounts(stream)) == Success(stream)
    ensures DecodeProperties(map[], [Discounts(EncodeDiscounts(stream)), UnitPrice(Some(base.unitPrice))]) ==
            Success(PutAll(map[], stream)[1 := base])
  {
    var m1 := PutAll(map[], stream);
    var json := [Discounts(EncodeDiscounts(stream)), UnitPrice(Some(base.unitPrice))];
    assert ApplyProperty(map[], json[0]) == Success(m1);
    assert json[1..] == [UnitPrice(Some(base.unitPrice))];
    assert DecodeProperties(m1, json[1..]) == Success(m1[1 := base]) by {
      assert json[1..][1..] == [];
    }
  }

  /** The base-price entry put in front of the enumerated discounts above 1 gives the
      whole list of the pricing. */
  lemma BasePriceHeadsStream(p: Pricing, m: map<int, Discount>)
    requires p.unitPrice.Some?
    requires Enumerates(StreamDiscounts(p), m)
    ensures Enumerates(p.discounts, m[1 := p.discounts[0]])
  {
    var ds := p.discounts;
    var stream := StreamDiscounts(p);
    assert stream == ds[1..];
    forall e | e in stream ensures ds[0].quantity < e.quantity {
      var k :| 0 <= k < |stream| && stream[k] == e;
      assert e == ds[k + 1];
    }
    EnumeratesCons(ds[0], stream, m);
    assert ds == [ds[0]] + stream;
  }

  /** Writing a pricing with `ToJson` and reading it back yields the same pricing. */
  method JsonRoundTrip(p: Pricing) returns (r: Result<Option<Pricing>, Error>)
    ensures r == Success(Some(p))
  {
    DecodeToJson(p);
    r := FromJson(ToJson(p));
    EnumerationUnique(r.value.value.discounts, p.discounts, DecodeProperties(map[], ToJson(p)).value);
  }

  /** As serialized by the source, a pricing without a base price comes back as the
      `null` check of the quantity-1 record: `"unit_price": null` reaches `setUnitPrice`. */
  lemma AsWrittenRejectsMissingBasePrice(p: Pricing)
    requires p.unitPrice.None?
    ensures DecodeProperties(map[], ToJsonAsWritten(p)) == Failure(MissingValue("Unit price cannot be null"))
  {
    var stream := StreamDiscounts(p);
    DiscountsRoundTrip(stream);
    assert ToJsonAsWritten(p)[1..] == [UnitPrice(None)];
  }

  /** What the source writes reads back exactly when the pricing has a base price. */
  lemma AsWrittenDecodesIffBasePrice(p: Pricing)
    ensures DecodeProperties(map[], ToJsonAsWritten(p)).Success? <==> p.unitPrice.Some?
  {
    if p.unitPrice.Some? {
      assert ToJsonAsWritten(p) == ToJson(p);
      DecodeToJson(p);
    } else {
      AsWrittenRejectsMissingBasePrice(p);
    }
  }

  /** With "unit_price" written before "discounts", the object decodes to the same map:
      `streamDiscounts()` holds no quantity-1 entry for the array to overwrite. */
  lemma UnitPriceFirstDecodesAlike(p: Pricing)
    requires p.unitPrice.Some?
    ensures DecodeProperties(map[], [UnitPrice(GetUnitPrice(p)), Discounts(EncodeDiscounts(StreamDiscounts(p)))]) ==
            DecodeProperties(map[], ToJson(p))
  {
    var stream := StreamDiscounts(p);
    var base := p.discounts[0];
    DiscountsRoundTrip(stream);
    assert base == Tier(1, p.unitPrice.value);
    assert ToJson(p) == [Discounts(EncodeDiscounts(stream)), UnitPrice(Some(base.unitPrice))];
    DecodeToJsonWithBasePrice(stream, base);
    assert 1 !in Quantities(stream);
    PutAllPutCommute(map[], base, stream);
    var json := [UnitPrice(GetUnitPrice(p)), Discounts(EncodeDiscounts(stream))];
    assert ApplyProperty(map[], json[0]) == Success(map[1 := base]);
    assert json[1..] == [Discounts(EncodeDiscounts(stream))];
    assert json[1..][1..] == [];
  }

  /** The object of the deserialization test: a unit price of 10.00 and a discount of
      9.00 from 5 pieces on. */
  const SampleJson: PricingObject :=
    [UnitPrice(Some(10.0)), Discounts([DiscountJson(Some(5), Some(9.0))])]

  /** It yields one discount beyond the unit price, and no quantity-1 entry among them. */
  lemma SampleJsonDecodes()
    ensures DecodeProperties(map[], SampleJson) == Success(map[1 := Tier(1, 10.0), 5 := Tier(5, 9.0)])
    ensures Enumerates([Tier(1, 10.0), Tier(5, 9.0)], map[1 := Tier(1, 10.0), 5 := Tier(5, 9.0)])
  {
    var ds: seq<Discount> := [Tier(5, 9.0)];
    DiscountsRoundTrip(ds);
    assert EncodeDiscounts(ds) == [DiscountJson(Some(5), Some(9.0))];
    assert PutAll(map[1 := Tier(1, 10.0)], ds) == map[1 := Tier(1, 10.0)][5 := Tier(5, 9.0)];
    assert SampleJson[1..] == [Discounts([DiscountJson(Some(5), Some(9.0))])];
  }

  /** An array element with a missing quantity aborts the whole object with the record's
      own exception, whatever was set before it. */
  lemma MissingQuantityAborts(unitPrice: real, price: Option<real>)
    requires unitPrice >= 0.0
    ensures DecodeProperties(map[], [UnitPrice(Some(unitPrice)), Discounts([DiscountJson(None, price)])]) ==
            Failure(MissingValue("Quantity cannot be null"))
  {
    var json := [UnitPrice(Some(unitPrice)), Discounts([DiscountJson(None, price)])];
    assert json[1..] == [Discounts([DiscountJson(None, price)])];
  }
}
