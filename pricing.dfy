/** Tiered pricing of one item: `Pricing.Discount`, the immutable `Pricing` value with its
    queries, and the mutable `Pricing.Builder`.

    Prices are exact (`real`): a `BigDecimal` is an arbitrary-precision decimal, and its
    scale is not modelled. Quantities are Java `Integer`s; no arithmetic on them can overflow. */
module PricingData {
  import opened Wrappers

  // ----------------------------------------------------------------------------------------
  // Discount
  // ----------------------------------------------------------------------------------------

  /** The two components of a `Discount` record: the least quantity at which the price
      applies, and the unit price from that quantity on. */
  datatype Tier = Tier(quantity: int, unitPrice: real)

  /** A `Discount` as its record constructor admits it: the quantity is positive and the
      unit price is not negative. Every `Discount` in the system satisfies this. */
  type Discount = t: Tier | t.quantity > 0 && t.unitPrice >= 0.0 witness Tier(1, 0.0)

  /** `NullPointerException` from `Objects.requireNonNull` is a missing value;
      `IllegalArgumentException` is an invalid argument. */
  datatype Error = MissingValue(message: string) | InvalidArgument(message: string)

  /** The compact record constructor of `Discount`. A `null` argument is `None`.
      The quantity is checked completely before the price is looked at. */
  function NewDiscount(quantity: Option<int>, unitPrice: Option<real>): (r: Result<Discount, Error>)
    ensures r.Success? <==> quantity.Some? && quantity.value > 0 && unitPrice.Some? && unitPrice.value >= 0.0
    ensures r.Success? ==> r.value == Tier(quantity.value, unitPrice.value)
    ensures r.Failure? ==> (r.error.MissingValue? <==> quantity.None? || (quantity.value > 0 && unitPrice.None?))
  {
    if quantity.None? then Failure(MissingValue("Quantity cannot be null"))
    else if quantity.value <= 0 then Failure(InvalidArgument("Quantity must be greater than zero"))
    else if unitPrice.None? then Failure(MissingValue("Unit price cannot be null"))
    else if unitPrice.value < 0.0 then Failure(InvalidArgument("Unit price cannot be negative"))
    else Success(Tier(quantity.value, unitPrice.value))
  }

  // ----------------------------------------------------------------------------------------
  // Sequences of discounts
  // ----------------------------------------------------------------------------------------

  predicate StrictlyAscending(ds: seq<Discount>) {
    forall i, j :: 0 <= i < j < |ds| ==> ds[i].quantity < ds[j].quantity
  }

  /** `stream().filter(keep)`: the elements that pass, in their order. */
  function Filter(ds: seq<Discount>, keep: Discount -> bool): (r: seq<Discount>)
    ensures forall d :: d in r <==> d in ds && keep(d)
    ensures StrictlyAscending(ds) ==> StrictlyAscending(r)
  {
    if ds == [] then []
    else
      var rest := Filter(ds[1..], keep);
      assert StrictlyAscending(ds) ==> forall d :: d in rest ==> ds[0].quantity < d.quantity by {
        if StrictlyAscending(ds) {
          forall d | d in rest ensures ds[0].quantity < d.quantity {
            var k :| 0 <= k < |ds[1..]| && ds[1..][k] == d;
            assert ds[k + 1] == d;
          }
        }
      }
      if keep(ds[0]) then [ds[0]] + rest else rest
  }

  /** An element of a strictly ascending sequence other than its head lies in its tail. */
  lemma AscendingTail(ds: seq<Discount>, d: Discount)
    requires StrictlyAscending(ds) && ds != []
    ensures d in ds[1..] <==> d in ds && d != ds[0]
  {
    if d in ds[1..] {
      var k :| 0 <= k < |ds[1..]| && ds[1..][k] == d;
      assert ds[k + 1] == d;
      assert ds[0].quantity < d.quantity;
    }
    if d in ds && d != ds[0] {
      var k :| 0 <= k < |ds| && ds[k] == d;
      assert ds[1..][k - 1] == d;
    }
  }

  /** A strictly ascending sequence is determined by the set of its elements. */
  lemma {:induction false} AscendingUnique(a: seq<Discount>, b: seq<Discount>)
    requires StrictlyAscending(a) && StrictlyAscending(b)
    requires forall d :: d in a <==> d in b
    ensures a == b
    decreases |a|
  {
    if b != [] {
      assert b[0] in b;
    }
    if a != [] {
      assert a[0] in a;
    }
    if a != [] && b != [] {
      assert a[0] in b;
      var j :| 0 <= j < |b| && b[j] == a[0];
      assert b[0] in a;
      var i :| 0 <= i < |a| && a[i] == b[0];
      assert a[0].quantity <= a[i].quantity;
      assert b[0].quantity <= b[j].quantity;
      assert a[0] == b[0];
      forall d ensures d in a[1..] <==> d in b[1..] {
        AscendingTail(a, d);
        AscendingTail(b, d);
      }
      AscendingUnique(a[1..], b[1..]);
      assert a == [a[0]] + a[1..];
      assert b == [b[0]] + b[1..];
    }
  }

  /** The price of the quantity-1 entry when it heads the list. */
  function BasePrice(ds: seq<Discount>): Option<real> {
    if |ds| > 0 && ds[0].quantity == 1 then Some(ds[0].unitPrice) else None
  }

  // ----------------------------------------------------------------------------------------
  // Pricing
  // ----------------------------------------------------------------------------------------

  /** The two final fields of `Pricing`: the full discount list, sorted by quantity and
      including the quantity-1 entry, and the base unit price kept beside it. */
  datatype PricingFields = PricingFields(discounts: seq<Discount>, unitPrice: Option<real>) {
    /** What the private constructor establishes: the builder had at least one entry, the
        list is sorted with one entry per quantity, and the unit price is that of the
        quantity-1 entry. */
    predicate Valid() {
      && discounts != []
      && StrictlyAscending(discounts)
      && unitPrice == BasePrice(discounts)
    }
  }

  /** A `Pricing` object: only `Builder.Build` makes one, so every one is valid. */
  type Pricing = p: PricingFields | p.Valid() witness PricingFields([Tier(1, 0.0)], Some(0.0))

  predicate AboveBase(d: Discount) {
    d.quantity > 1
  }

  /** `streamDiscounts()`: the tiers without the quantity-1 entry, in ascending order. */
  function StreamDiscounts(p: Pricing): (r: seq<Discount>)
    ensures forall d :: d in r <==> d in p.discounts && d.quantity != 1
    ensures StrictlyAscending(r)
    ensures r == (if p.unitPrice.Some? then p.discounts[1..] else p.discounts)
  {
    var r := Filter(p.discounts, AboveBase);
    var expected := if p.unitPrice.Some? then p.discounts[1..] else p.discounts;
    assert StrictlyAscending(expected);
    forall d ensures d in r <==> d in expected {
      AscendingTail(p.discounts, d);
      if d in p.discounts {
        var k :| 0 <= k < |p.discounts| && p.discounts[k] == d;
        assert p.discounts[0].quantity <= d.quantity;
      }
    }
    AscendingUnique(r, expected);
    r
  }

  /** `getUnitPrice()`: the price of the quantity-1 entry, whatever the other tiers are. */
  function GetUnitPrice(p: Pricing): (r: Option<real>)
    ensures r.Some? <==> exists d :: d in p.discounts && d.quantity == 1
    ensures forall d :: d in p.discounts && d.quantity == 1 ==> r == Some(d.unitPrice)
  {
    assert p.discounts[0] in p.discounts;
    forall d | d in p.discounts && d.quantity == 1 ensures d == p.discounts[0] {
      var k :| 0 <= k < |p.discounts| && p.discounts[k] == d;
      assert p.discounts[0].quantity <= d.quantity;
    }
    p.unitPrice
  }

  /** `d` is the entry with the largest quantity not above `quantity`. */
  ghost predicate BestTier(ds: seq<Discount>, quantity: int, d: Discount) {
    && d in ds
    && d.quantity <= quantity
    && forall e :: e in ds && e.quantity <= quantity ==> e.quantity <= d.quantity
  }

  /** `findDiscountedUnitPrice(quantity)`: filter the entries up to `quantity`, keep the
      last one (`reduce((first, second) -> second)`) and take its price. */
  function FindDiscountedUnitPrice(p: Pricing, quantity: int): (r: Option<real>)
    ensures r.None? <==> forall d :: d in p.discounts ==> quantity < d.quantity
    ensures r.Some? ==> exists d :: BestTier(p.discounts, quantity, d) && d.unitPrice == r.value
  {
    var eligible := Filter(p.discounts, (d: Discount) => d.quantity <= quantity);
    if eligible == [] then None
    else
      var last := eligible[|eligible| - 1];
      assert last in eligible;
      assert BestTier(p.discounts, quantity, last) by {
        forall e | e in p.discounts && e.quantity <= quantity ensures e.quantity <= last.quantity {
          assert e in eligible;
          var k :| 0 <= k < |eligible| && eligible[k] == e;
        }
      }
      Some(last.unitPrice)
  }

  /** The answer of `findDiscountedUnitPrice` read off by position: the entry at `i` is the
      last one whose quantity does not exceed `quantity`. */
  lemma FindDiscountedAt(p: Pricing, quantity: int, i: int)
    requires 0 <= i < |p.discounts|
    requires p.discounts[i].quantity <= quantity
    requires i + 1 == |p.discounts| || quantity < p.discounts[i + 1].quantity
    ensures FindDiscountedUnitPrice(p, quantity) == Some(p.discounts[i].unitPrice)
  {
    var ds := p.discounts;
    var r := FindDiscountedUnitPrice(p, quantity);
    assert ds[i] in ds;
    assert r.Some?;
    var d :| BestTier(ds, quantity, d) && d.unitPrice == r.value;
    assert d in ds && d.quantity <= quantity;
    var k :| 0 <= k < |ds| && ds[k] == d;
    assert ds[i].quantity <= d.quantity;
    assert k == i;
  }

  /** `reducedPrice.multiply(BigDecimal.valueOf(quantity))`, exact. */
  function Times(reducedPrice: real, quantity: int): (total: real)
    requires reducedPrice >= 0.0 && quantity >= 1
    ensures 0.0 <= reducedPrice <= total
    ensures total == reducedPrice <==> quantity == 1 || reducedPrice == 0.0
  {
    reducedPrice * quantity as real
  }

  /** `calculateTotalPrice(quantity)`: the discounted unit price times the quantity. */
  function CalculateTotalPrice(p: Pricing, quantity: int): (r: Option<real>)
    ensures r.None? <==> forall d :: d in p.discounts ==> quantity < d.quantity
    ensures FindDiscountedUnitPrice(p, quantity).Some? ==>
              r == Some(FindDiscountedUnitPrice(p, quantity).value * quantity as real)
    ensures r.Some? ==> quantity >= 1 && r.value >= 0.0
  {
    var discounted := FindDiscountedUnitPrice(p, quantity);
    if discounted.None? then None
    else
      assert quantity >= 1 && discounted.value >= 0.0 by {
        var d :| BestTier(p.discounts, quantity, d) && d.unitPrice == discounted.value;
        assert d in p.discounts;
      }
      Some(Times(discounted.value, quantity))
  }

  // ----------------------------------------------------------------------------------------
  // areDiscountsSane
  // ----------------------------------------------------------------------------------------

  /** `BigDecimal.valueOf(-1)`, the mark of a price that did not drop. */
  const Sentinel: real := -1.0

  /** `map(Discount::unitPrice)`. */
  function Prices(ds: seq<Discount>): (prices: seq<real>)
    ensures |prices| == |ds|
    ensures forall i :: 0 <= i < |ds| ==> prices[i] == ds[i].unitPrice && prices[i] >= 0.0
  {
    seq(|ds|, i requires 0 <= i < |ds| => ds[i].unitPrice)
  }

  /** The reducing lambda: keep the current price when it is below the previous one. */
  function SaneStep(previousPrice: real, currentPrice: real): real {
    if currentPrice < previousPrice then currentPrice else Sentinel
  }

  /** `reduce(SaneStep)` over `[acc] + rest`, from the left. */
  function ReducePrices(acc: real, rest: seq<real>): real
    decreases |rest|
  {
    if rest == [] then acc else ReducePrices(SaneStep(acc, rest[0]), rest[1..])
  }

  predicate StrictlyDecreasing(prices: seq<real>) {
    forall i :: 0 < i < |prices| ==> prices[i] < prices[i - 1]
  }

  /** `areDiscountsSane()`: reduce the prices of the full list (quantity-1 entry included);
      an empty reduction gives `ZERO`; the list is sane unless the sentinel comes out. */
  function AreDiscountsSane(p: Pricing): (r: bool)
    ensures r <==> forall i :: 0 < i < |p.discounts| ==> p.discounts[i].unitPrice < p.discounts[i - 1].unitPrice
  {
    var prices := Prices(p.discounts);
    ReduceDetectsRise(prices[0], prices[1..]);
    assert [prices[0]] + prices[1..] == prices;
    (if prices == [] then 0.0 else ReducePrices(prices[0], prices[1..])) != Sentinel
  }

  /** Once the sentinel is the accumulator it stays, because no price is below it. */
  lemma {:induction false} SentinelAbsorbs(rest: seq<real>)
    requires forall i :: 0 <= i < |rest| ==> rest[i] >= 0.0
    ensures ReducePrices(Sentinel, rest) == Sentinel
    decreases |rest|
  {
    if rest != [] {
      assert SaneStep(Sentinel, rest[0]) == Sentinel;
      SentinelAbsorbs(rest[1..]);
    }
  }

  /** The sentinel fold answers "every price is below the one before it". */
  lemma {:induction false} ReduceDetectsRise(acc: real, rest: seq<real>)
    requires acc >= 0.0
    requires forall i :: 0 <= i < |rest| ==> rest[i] >= 0.0
    ensures ReducePrices(acc, rest) != Sentinel <==> StrictlyDecreasing([acc] + rest)
    decreases |rest|
  {
    var s := [acc] + rest;
    if rest == [] {
      assert ReducePrices(acc, rest) == acc;
    } else if rest[0] < acc {
      ReduceDetectsRise(rest[0], rest[1..]);
      assert [rest[0]] + rest[1..] == rest;
      assert ReducePrices(acc, rest) == ReducePrices(rest[0], rest[1..]);
      assert s[1] < s[0];
      if StrictlyDecreasing(rest) {
        forall i | 0 < i < |s| ensures s[i] < s[i - 1] {
          if i > 1 {
            assert s[i] == rest[i - 1] && s[i - 1] == rest[i - 2];
          }
        }
      }
      if StrictlyDecreasing(s) {
        forall i | 0 < i < |rest| ensures rest[i] < rest[i - 1] {
          assert s[i + 1] == rest[i] && s[i] == rest[i - 1];
        }
      }
    } else {
      SentinelAbsorbs(rest[1..]);
      assert s[1] == rest[0];
    }
  }

  /** Adjacent drops give a drop between any two entries. */
  lemma {:induction false} DecreasingAcross(ds: seq<Discount>, i: int, j: int)
    requires forall k :: 0 < k < |ds| ==> ds[k].unitPrice < ds[k - 1].unitPrice
    requires 0 <= i <= j < |ds|
    ensures ds[j].unitPrice <= ds[i].unitPrice
    decreases j - i
  {
    if i < j {
      DecreasingAcross(ds, i, j - 1);
    }
  }

  /** With sane discounts, buying more never raises the unit price. */
  lemma SaneDiscountsNeverRaiseUnitPrice(p: Pricing, smaller: int, larger: int)
    requires AreDiscountsSane(p)
    requires smaller <= larger
    requires FindDiscountedUnitPrice(p, smaller).Some?
    ensures FindDiscountedUnitPrice(p, larger).Some?
    ensures FindDiscountedUnitPrice(p, larger).value <= FindDiscountedUnitPrice(p, smaller).value
  {
    var ds := p.discounts;
    var i := BestTierIndex(p, smaller);
    var j := BestTierIndex(p, larger);
    assert ds[i].quantity <= ds[j].quantity;
    DecreasingAcross(ds, i, j);
  }

  /** The position of the tier whose price `findDiscountedUnitPrice(quantity)` returns. */
  lemma BestTierIndex(p: Pricing, quantity: int) returns (i: int)
    requires FindDiscountedUnitPrice(p, quantity).Some?
    ensures 0 <= i < |p.discounts| && BestTier(p.discounts, quantity, p.discounts[i])
    ensures p.discounts[i].unitPrice == FindDiscountedUnitPrice(p, quantity).value
  {
    var d :| BestTier(p.discounts, quantity, d) && d.unitPrice == FindDiscountedUnitPrice(p, quantity).value;
    i :| 0 <= i < |p.discounts| && p.discounts[i] == d;
  }

  /** The tiers 1:10.00, 5:9.00, 10:8.50 and 20:7.00. */
  const TieredExample: Pricing := PricingFields([Tier(1, 10.0), Tier(5, 9.0), Tier(10, 8.5), Tier(20, 7.0)], Some(10.0))

  lemma TieredExampleUnitPrices()
    ensures FindDiscountedUnitPrice(TieredExample, 3) == Some(10.0)
    ensures FindDiscountedUnitPrice(TieredExample, 5) == Some(9.0)
    ensures FindDiscountedUnitPrice(TieredExample, 15) == Some(8.5)
    ensures FindDiscountedUnitPrice(TieredExample, 25) == Some(7.0)
    ensures FindDiscountedUnitPrice(TieredExample, 0) == None
  {
    FindDiscountedAt(TieredExample, 3, 0);
    FindDiscountedAt(TieredExample, 5, 1);
    FindDiscountedAt(TieredExample, 15, 2);
    FindDiscountedAt(TieredExample, 25, 3);
  }

  lemma TieredExampleTotalAndSanity()
    ensures CalculateTotalPrice(TieredExample, 10) == Some(85.0)
    ensures AreDiscountsSane(TieredExample)
  {
    FindDiscountedAt(TieredExample, 10, 2);
  }

  /** The tiers 5:9.00 and 10:10.00: the price rises at the higher quantity. */
  const RisingExample: Pricing := PricingFields([Tier(5, 9.0), Tier(10, 10.0)], None)

  lemma RisingExampleIsNotSane()
    ensures !AreDiscountsSane(RisingExample)
    ensures FindDiscountedUnitPrice(RisingExample, 4) == None
    ensures CalculateTotalPrice(RisingExample, 4) == None
  {
  }

  // ----------------------------------------------------------------------------------------
  // Builder
  // ----------------------------------------------------------------------------------------

  /** Every entry of the builder's map sits under its own quantity. */
  predicate KeyedByQuantity(m: map<int, Discount>) {
    forall q :: q in m ==> m[q].quantity == q
  }

  /** `discounts.put(quantity, new Discount(quantity, price))`. The record is made before
      the map is touched, so a rejected one leaves the map as it was; an accepted one
      replaces whatever was stored for its quantity. */
  function Put(m: map<int, Discount>, quantity: Option<int>, price: Option<real>): (r: Result<map<int, Discount>, Error>)
    ensures r.Success? <==> NewDiscount(quantity, price).Success?
    ensures r.Failure? ==> r.error == NewDiscount(quantity, price).error
    ensures r.Success? ==>
              && r.value.Keys == m.Keys + {quantity.value}
              && r.value[quantity.value] == Tier(quantity.value, price.value)
              && forall q :: q in m && q != quantity.value ==> r.value[q] == m[q]
    ensures r.Success? && KeyedByQuantity(m) ==> KeyedByQuantity(r.value)
  {
    match NewDiscount(quantity, price)
    case Failure(e) => Failure(e)
    case Success(d) => Success(m[d.quantity := d])
  }

  /** `setJsonDiscounts(list)`: every entry of the list put in turn, so a later entry for a
      quantity replaces an earlier one. */
  function PutAll(m: map<int, Discount>, ds: seq<Discount>): (r: map<int, Discount>)
    ensures KeyedByQuantity(m) ==> KeyedByQuantity(r)
    ensures m.Keys <= r.Keys
    ensures ds != [] ==> ds[|ds| - 1].quantity in r && r[ds[|ds| - 1].quantity] == ds[|ds| - 1]
    decreases |ds|
  {
    if ds == [] then m
    else
      var last := ds[|ds| - 1];
      PutAll(m, ds[..|ds| - 1])[last.quantity := last]
  }

  function Quantities(ds: seq<Discount>): set<int> {
    set d | d in ds :: d.quantity
  }

  /** Putting a list of entries adds exactly their quantities as keys. */
  lemma {:induction false} PutAllKeys(m: map<int, Discount>, ds: seq<Discount>)
    ensures PutAll(m, ds).Keys == m.Keys + Quantities(ds)
    decreases |ds|
  {
    if ds != [] {
      var init, last := ds[..|ds| - 1], ds[|ds| - 1];
      assert ds == init + [last];
      PutAllKeys(m, init);
      QuantitiesSnoc(init, last);
    }
  }

  /** Putting entries with distinct quantities keeps each of them: none is overwritten. */
  lemma {:induction false} PutAllKeepsDistinct(m: map<int, Discount>, ds: seq<Discount>)
    requires StrictlyAscending(ds)
    ensures forall d :: d in ds ==> d.quantity in PutAll(m, ds) && PutAll(m, ds)[d.quantity] == d
    decreases |ds|
  {
    if ds != [] {
      var init, last := ds[..|ds| - 1], ds[|ds| - 1];
      AscendingPrefix(ds, |ds| - 1);
      PutAllKeepsDistinct(m, init);
      var before := PutAll(m, init);
      assert PutAll(m, ds) == before[last.quantity := last];
      forall d | d in ds ensures d.quantity in PutAll(m, ds) && PutAll(m, ds)[d.quantity] == d {
        if d != last {
          var k :| 0 <= k < |ds| && ds[k] == d;
          assert k < |ds| - 1;
          assert d in init && d.quantity < last.quantity;
        }
      }
    }
  }

  /** The last entry of the list for a quantity is the one stored under it, whatever came
      before it in the list or in the map. */
  lemma {:induction false} PutAllLastWins(m: map<int, Discount>, ds: seq<Discount>, i: int)
    requires 0 <= i < |ds|
    requires forall j :: i < j < |ds| ==> ds[j].quantity != ds[i].quantity
    ensures ds[i].quantity in PutAll(m, ds) && PutAll(m, ds)[ds[i].quantity] == ds[i]
    decreases |ds|
  {
    if i < |ds| - 1 {
      var init := ds[..|ds| - 1];
      assert forall j :: i < j < |init| ==> init[j] == ds[j];
      PutAllLastWins(m, init, i);
      assert init[i] == ds[i];
    }
  }

  /** A quantity the list does not name keeps its old entry, or stays absent. */
  lemma {:induction false} PutAllOthers(m: map<int, Discount>, ds: seq<Discount>, q: int)
    requires q !in Quantities(ds)
    ensures q in PutAll(m, ds) <==> q in m
    ensures q in m ==> PutAll(m, ds)[q] == m[q]
    decreases |ds|
  {
    if ds != [] {
      var init, last := ds[..|ds| - 1], ds[|ds| - 1];
      assert ds == init + [last];
      QuantitiesSnoc(init, last);
      PutAllOthers(m, init, q);
    }
  }

  /** An entry whose quantity the list does not name may be put before the list or after
      it: the map comes out the same. */
  lemma {:induction false} PutAllPutCommute(m: map<int, Discount>, d: Discount, ds: seq<Discount>)
    requires d.quantity !in Quantities(ds)
    ensures PutAll(m[d.quantity := d], ds) == PutAll(m, ds)[d.quantity := d]
    decreases |ds|
  {
    if ds != [] {
      var init, last := ds[..|ds| - 1], ds[|ds| - 1];
      assert ds == init + [last];
      QuantitiesSnoc(init, last);
      PutAllPutCommute(m, d, init);
      assert last.quantity != d.quantity;
      var before := PutAll(m, init);
      var withEntry := before[d.quantity := d];
      var withLast := before[last.quantity := last];
      assert withEntry[last.quantity := last] == withLast[d.quantity := d];
    }
  }

  lemma AscendingPrefix(ds: seq<Discount>, n: nat)
    requires StrictlyAscending(ds) && n <= |ds|
    ensures StrictlyAscending(ds[..n])
  {
  }

  lemma QuantitiesSnoc(init: seq<Discount>, last: Discount)
    ensures Quantities(init + [last]) == Quantities(init) + {last.quantity}
  {
    var ds := init + [last];
    forall q | q in Quantities(ds) ensures q in Quantities(init) + {last.quantity} {
      var d :| d in ds && d.quantity == q;
      if d != last {
        assert d in init;
      }
    }
    forall q | q in Quantities(init) ensures q in Quantities(ds) {
      var d :| d in init && d.quantity == q;
      assert d in ds;
    }
    assert last in ds;
  }

  /** `ds` lists the entries of `m`, one each, ascending by quantity: what
      `values().stream().sorted(comparing(quantity))` yields. */
  ghost predicate Enumerates(ds: seq<Discount>, m: map<int, Discount>) {
    && StrictlyAscending(ds)
    && (forall d :: d in ds ==> d.quantity in m && m[d.quantity] == d)
    && (forall q :: q in m ==> m[q] in ds)
  }

  /** The sorted list of a map's entries is unique. */
  lemma EnumerationUnique(a: seq<Discount>, b: seq<Discount>, m: map<int, Discount>)
    requires Enumerates(a, m) && Enumerates(b, m)
    ensures a == b
  {
    AscendingUnique(a, b);
  }

  /** The entry of quantity 1, when there is one, heads the sorted list. */
  lemma EnumerationBasePrice(ds: seq<Discount>, m: map<int, Discount>)
    requires KeyedByQuantity(m) && Enumerates(ds, m)
    ensures BasePrice(ds) == (if 1 in m then Some(m[1].unitPrice) else None)
  {
    if 1 in m {
      var k :| 0 <= k < |ds| && ds[k] == m[1];
      assert ds[0].quantity <= ds[k].quantity;
      assert k == 0;
    } else if ds != [] {
      assert ds[0] in ds;
    }
  }

  /** Loop state of `build()`: `sorted` enumerates, ascending, the entries of `m` whose
      quantities are not `pending`, and every one of them is below every pending one. */
  ghost predicate SortedExcept(sorted: seq<Discount>, pending: set<int>, m: map<int, Discount>) {
    && pending <= m.Keys
    && StrictlyAscending(sorted)
    && (forall d :: d in sorted ==> d.quantity in m && m[d.quantity] == d && d.quantity !in pending)
    && (forall q :: q in m && q !in pending ==> m[q] in sorted)
    && (forall d, q :: d in sorted && q in pending ==> d.quantity < q)
  }

  /** Moving the least pending entry to the end of the sorted prefix keeps the loop state. */
  lemma TakeLeast(sorted: seq<Discount>, pending: set<int>, m: map<int, Discount>, q: int)
    requires KeyedByQuantity(m) && SortedExcept(sorted, pending, m)
    requires q in pending && forall k :: k in pending ==> q <= k
    ensures SortedExcept(sorted + [m[q]], pending - {q}, m)
  {
    var next := sorted + [m[q]];
    forall i, j | 0 <= i < j < |next| ensures next[i].quantity < next[j].quantity {
      if j == |sorted| {
        assert next[i] in sorted;
      } else {
        assert next[i] == sorted[i] && next[j] == sorted[j];
      }
    }
    forall d | d in next ensures d.quantity in m && m[d.quantity] == d && d.quantity !in pending - {q} {
      if d != m[q] {
        assert d in sorted;
      }
    }
    forall d, k | d in next && k in pending - {q} ensures d.quantity < k {
      if d != m[q] {
        assert d in sorted;
      }
    }
  }

  /** With nothing pending, the sorted prefix enumerates the whole map. */
  lemma SortedExceptNothing(sorted: seq<Discount>, m: map<int, Discount>)
    requires SortedExcept(sorted, {}, m)
    ensures Enumerates(sorted, m)
  {
  }

  /** A set of quantities is empty or has a member to pick. */
  lemma EmptyOrInhabited(s: set<int>)
    ensures s == {} || exists k :: k in s
  {
    if forall k :: k !in s {
      assert s == {};
    }
  }

  /** A non-empty finite set of quantities has a least element. */
  lemma {:induction false} LeastOf(s: set<int>) returns (least: int)
    requires s != {}
    ensures least in s && forall k :: k in s ==> least <= k
    decreases |s|
  {
    EmptyOrInhabited(s);
    var x :| x in s;
    var rest := s - {x};
    if rest == {} {
      forall k | k in s ensures x <= k {
        assert k !in rest;
      }
      least := x;
    } else {
      var y := LeastOf(rest);
      least := if x <= y then x else y;
      forall k | k in s ensures least <= k {
        if k != x {
          assert k in rest;
        }
      }
    }
  }

  /** `Pricing.Builder`: a map from quantity to discount, the last write for a quantity wins. */
  class Builder {
    var discounts: map<int, Discount>

    ghost predicate Valid()
      reads this
    {
      KeyedByQuantity(discounts)
    }

    constructor ()
      ensures Valid() && discounts == map[]
    {
      discounts := map[];
    }

    /** `addDiscount(quantity, discountedPrice)`: a `Fail` outcome is the exception the
        record constructor throws; the builder is then unchanged. */
    method AddDiscount(quantity: Option<int>, discountedPrice: Option<real>) returns (outcome: Outcome<Error>)
      requires Valid()
      modifies this
      ensures Valid()
      ensures (match Put(old(discounts), quantity, discountedPrice)
               case Success(m) => outcome == Pass && discounts == m
               case Failure(e) => outcome == Fail(e) && discounts == old(discounts))
    {
      var made := NewDiscount(quantity, discountedPrice);
      match made {
        case Failure(e) =>
          outcome := Fail(e);
        case Success(discount) =>
          discounts := discounts[discount.quantity := discount];
          outcome := Pass;
      }
    }

    /** `setUnitPrice(unitPrice)` is `addDiscount(1, unitPrice)`. */
    method SetUnitPrice(unitPrice: Option<real>) returns (outcome: Outcome<Error>)
      requires Valid()
      modifies this
      ensures Valid()
      ensures (match Put(old(discounts), Some(1), unitPrice)
               case Success(m) => outcome == Pass && discounts == m
               case Failure(e) => outcome == Fail(e) && discounts == old(discounts))
    {
      outcome := AddDiscount(Some(1), unitPrice);
    }

    /** `setJsonDiscounts(list)`: `addDiscount` for each record of the list, in order.
        Every record is already valid, so none of the calls fails. */
    method SetJsonDiscounts(list: seq<Discount>)
      requires Valid()
      modifies this
      ensures Valid()
      ensures discounts == PutAll(old(discounts), list)
    {
      for i := 0 to |list|
        invariant Valid()
        invariant discounts == PutAll(old(discounts), list[..i])
      {
        var discount := list[i];
        var outcome := AddDiscount(Some(discount.quantity), Some(discount.unitPrice));
        assert list[..i + 1][..i] == list[..i];
      }
      assert list[..|list|] == list;
    }

    /** `build()`: no pricing when nothing was added; otherwise the entries sorted by
        quantity, with the quantity-1 entry's price as the unit price. */
    method Build() returns (r: Option<Pricing>)
      requires Valid()
      ensures r.None? <==> discounts == map[]
      ensures r.Some? ==> Enumerates(r.value.discounts, discounts)
      ensures r.Some? ==> r.value.unitPrice == (if 1 in discounts then Some(discounts[1].unitPrice) else None)
    {
      if discounts == map[] {
        return None;
      }
      // sorted(Comparator.comparing(Discount::quantity)): take the least pending quantity
      var sorted: seq<Discount> := [];
      var pending := discounts.Keys;
      while pending != {}
        invariant SortedExcept(sorted, pending, discounts)
        decreases pending
      {
        ghost var least := LeastOf(pending);
        var q :| q in pending && forall k :: k in pending ==> q <= k;
        TakeLeast(sorted, pending, discounts, q);
        sorted := sorted + [discounts[q]];
        pending := pending - {q};
      }
      SortedExceptNothing(sorted, discounts);
      var unitPriceDiscount := if 1 in discounts then Some(discounts[1].unitPrice) else None;
      EnumerationBasePrice(sorted, discounts);
      EmptyOrInhabited(discounts.Keys);
      var someKey :| someKey in discounts.Keys;
      assert discounts[someKey] in sorted;
      r := Some(PricingFields(sorted, unitPriceDiscount));
    }
  }

  /** The chain of the tests, with the tiers added out of order: `build()` sorts them and
      yields the tiered example. */
  method BuildTieredExample() returns (r: Option<Pricing>)
    ensures r == Some(TieredExample)
  {
    var builder := new Builder();
    var outcome := builder.SetUnitPrice(Some(10.0));
    outcome := builder.AddDiscount(Some(20), Some(7.0));
    outcome := builder.AddDiscount(Some(5), Some(9.0));
    outcome := builder.AddDiscount(Some(10), Some(8.5));
    var m := builder.discounts;
    assert m == map[1 := Tier(1, 10.0), 20 := Tier(20, 7.0), 5 := Tier(5, 9.0), 10 := Tier(10, 8.5)];
    r := builder.Build();
    assert Enumerates(TieredExample.discounts, m) by {
      var ds := TieredExample.discounts;
      forall q | q in m ensures m[q] in ds {
        assert q == 1 || q == 5 || q == 10 || q == 20;
      }
    }
    EnumerationUnique(r.value.discounts, TieredExample.discounts, m);
  }

  /** A unit price alone is enough for a pricing, which then has no further tiers. */
  method BuildUnitPriceOnly() returns (r: Option<Pricing>)
    ensures r.Some? && GetUnitPrice(r.value) == Some(10.0)
    ensures StreamDiscounts(r.value) == []
  {
    var builder := new Builder();
    var outcome := builder.SetUnitPrice(Some(10.0));
    var m := builder.discounts;
    r := builder.Build();
    EnumerationUnique(r.value.discounts, [Tier(1, 10.0)], m);
  }

  /** A rejected discount leaves the builder empty, so nothing is built. */
  method BuildAfterNegativeQuantity() returns (outcome: Outcome<Error>, r: Option<Pricing>)
    ensures outcome == Fail(InvalidArgument("Quantity must be greater than zero"))
    ensures r.None?
  {
    var builder := new Builder();
    outcome := builder.AddDiscount(Some(-5), Some(9.0));
    r := builder.Build();
  }
}
