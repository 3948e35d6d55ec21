/** The stored discount of each product, kept by two loops: one over products, one over discounts. */
module Discounts {
  import opened Conditions
  import opened Prelude

  datatype Kind = Fixed | Percentage | StoreWide | FlashFixed | FlashPercentage | CategorySpecific

  datatype ValueType = ByAmount | ByPercent

  datatype Discount = Discount(
    business: Id,
    kind: Kind,
    value: real,
    valueType: Option<ValueType>,
    matchAll: bool,
    conditions: seq<Condition>,
    active: bool,
    start: Option<int>,
    end: Option<int>,
    includes: seq<Id>,
    excludes: seq<Id>)

  /** `applied`, `price` and `percent` are what the loops store. */
  datatype Product = Product(
    business: Option<Id>, base: real, applied: Option<Id>, price: Option<real>, percent: Option<real>)

  /** Products and discounts; an id is a position. */
  datatype Catalog = Catalog(products: seq<Product>, discounts: seq<Discount>)

  // ---------- One discount on one product ----------

  predicate Live(d: Discount, now: int) {
    d.active && (d.start.Some? ==> d.start.value <= now) && (d.end.Some? ==> d.end.value >= now)
  }

  function PercentOf(base: real, value: real): real {
    base * value / 100.0
  }

  function Amount(base: real, d: Discount): real {
    match d.kind
    case Percentage | FlashPercentage => PercentOf(base, d.value)
    case StoreWide => if d.valueType == Some(ByAmount) then d.value else PercentOf(base, d.value)
    case Fixed | FlashFixed => d.value
    case CategorySpecific => if d.valueType == Some(ByPercent) then PercentOf(base, d.value) else d.value
  }

  /** What the discount takes off, at most the base price. */
  function Saving(base: real, d: Discount): real {
    Min(Amount(base, d), base)
  }

  function After(base: real, d: Discount): real {
    if base <= 0.0 then 0.0 else base - Saving(base, d)
  }

  function SavingPercent(base: real, d: Discount): real {
    if base <= 0.0 then 0.0 else Saving(base, d) / base * 100.0
  }

  /**
    A discount never raises a price nor takes it below zero, the percentage shown is the part of the base price
    that it takes off, and a larger value never costs the customer more.
   */
  lemma DiscountIsFair(base: real, d: Discount, more: Discount)
    requires base > 0.0 && 0.0 <= d.value <= more.value && more.kind == d.kind && more.valueType == d.valueType
    ensures 0.0 <= After(base, more) <= After(base, d) <= base
    ensures 0.0 <= SavingPercent(base, d) <= 100.0
    ensures PercentOf(base, SavingPercent(base, d)) == base - After(base, d)
  {
    PercentGrows(base, 0.0, d.value);
    PercentGrows(base, d.value, more.value);
    SavingShare(base, Saving(base, d));
  }

  lemma PercentGrows(base: real, v: real, w: real)
    requires base > 0.0 && v <= w
    ensures PercentOf(base, v) <= PercentOf(base, w) && PercentOf(base, 0.0) == 0.0
  {
    assert base * v <= base * w;
  }

  lemma SavingShare(base: real, saving: real)
    requires base > 0.0 && 0.0 <= saving <= base
    ensures 0.0 <= saving / base * 100.0 <= 100.0
    ensures PercentOf(base, saving / base * 100.0) == saving
  {
    var share := saving / base;
    assert share * base == saving;
    assert 0.0 <= share <= 1.0;
    assert base * (share * 100.0) == saving * 100.0;
  }

  predicate Applicable(meets: Meets, d: Discount, p: Id) {
    d.kind == StoreWide || Matches(meets, d.matchAll, d.conditions, p)
  }

  /** Overrides by hand come first; only the loop over products heeds them. */
  predicate Chosen(meets: Meets, d: Discount, p: Id) {
    p !in d.excludes && (p in d.includes || Applicable(meets, d, p))
  }

  function Priced(p: Product, d: Discount, k: Id): Product {
    p.(applied := Some(k), price := Some(Round(After(p.base, d))), percent := Some(Round(SavingPercent(p.base, d))))
  }

  function Cleared(p: Product): Product {
    p.(applied := None, price := None, percent := None)
  }

  // ---------- Applying one discount to all products ----------

  /** Another discount is stored, still exists, and is at least as good. */
  predicate Outdone(discounts: seq<Discount>, k: Id, p: Product)
    requires k < |discounts|
  {
    && p.applied.Some? && p.applied.value != k && p.applied.value < |discounts|
    && After(p.base, discounts[p.applied.value]) <= After(p.base, discounts[k])
  }

  predicate Writes(meets: Meets, discounts: seq<Discount>, k: Id, id: Id, p: Product)
    requires k < |discounts|
  {
    p.business == Some(discounts[k].business)
    && if Chosen(meets, discounts[k], id) then !Outdone(discounts, k, p) else p.applied == Some(k)
  }

  function AppliedTo(meets: Meets, discounts: seq<Discount>, k: Id, id: Id, p: Product): Product
    requires k < |discounts|
  {
    if !Writes(meets, discounts, k, id, p) then p
    else if Chosen(meets, discounts[k], id) then Priced(p, discounts[k], k)
    else Cleared(p)
  }

  function AppliedUpTo(meets: Meets, cat: Catalog, k: Id, n: nat): Catalog
    requires k < |cat.discounts|
  {
    cat.(products := seq(|cat.products|, i requires 0 <= i < |cat.products| =>
      if i < n then AppliedTo(meets, cat.discounts, k, i, cat.products[i]) else cat.products[i]))
  }

  function Applied(meets: Meets, cat: Catalog, k: Id, now: int): Catalog {
    if k >= |cat.discounts| || !Live(cat.discounts[k], now) then cat else AppliedUpTo(meets, cat, k, |cat.products|)
  }

  /** How many of the first `n` products are written. */
  function WriteCount(meets: Meets, cat: Catalog, k: Id, n: nat): nat
    requires k < |cat.discounts| && n <= |cat.products|
  {
    if n == 0 then 0
    else WriteCount(meets, cat, k, n - 1) + if Writes(meets, cat.discounts, k, n - 1, cat.products[n - 1]) then 1 else 0
  }

  // ---------- Syncing one product with all discounts ----------

  predicate Considered(meets: Meets, d: Discount, id: Id, p: Product, now: int) {
    p.business == Some(d.business) && Live(d, now) && Applicable(meets, d, id)
  }

  datatype Best = Best(discount: Option<Id>, price: real, percent: real)

  /** The best of the first `n` discounts, if one is strictly below the base price. */
  function BestUpTo(meets: Meets, discounts: seq<Discount>, id: Id, p: Product, now: int, n: nat): Best
    requires n <= |discounts|
  {
    if n == 0 then Best(None, p.base, 0.0)
    else
      var prior, d := BestUpTo(meets, discounts, id, p, now, n - 1), discounts[n - 1];
      if Considered(meets, d, id, p, now) && After(p.base, d) < prior.price
      then Best(Some(n - 1), After(p.base, d), SavingPercent(p.base, d)) else prior
  }

  function SyncedProduct(meets: Meets, discounts: seq<Discount>, id: Id, p: Product, now: int): Product {
    if p.business.None? then p
    else
      var best := BestUpTo(meets, discounts, id, p, now, |discounts|);
      if best.discount.Some? then
        p.(applied := best.discount, price := Some(Round(best.price)), percent := Some(Round(best.percent)))
      else if p.applied.Some? then Cleared(p) else p
  }

  function Synced(meets: Meets, cat: Catalog, id: Id, now: int): Catalog {
    if id >= |cat.products| then cat
    else cat.(products := cat.products[id := SyncedProduct(meets, cat.discounts, id, cat.products[id], now)])
  }

  class DiscountService {
    var products: seq<Product>
    var discounts: seq<Discount>
    const meets: Meets

    function State(): Catalog
      reads this
    {
      Catalog(products, discounts)
    }

    constructor (products: seq<Product>, discounts: seq<Discount>, meets: Meets)
      ensures State() == Catalog(products, discounts) && this.meets == meets
    {
      this.products, this.discounts, this.meets := products, discounts, meets;
    }

    method CalculateDiscountedPrice(base: real, d: Discount) returns (price: real, percent: real)
      ensures price == After(base, d) && percent == SavingPercent(base, d)
    {
      if base <= 0.0 { return 0.0, 0.0; }
      var amount := Amount(base, d);
      if base < amount { amount := base; }
      price, percent := base - amount, amount / base * 100.0;
    }

    method ApplyTo(k: Id, id: Id) returns (updated: bool)
      requires k < |discounts| && id < |products|
      modifies this`products
      ensures State()
        == old(State()).(products := old(products)[id := AppliedTo(meets, discounts, k, id, old(products[id]))])
      ensures updated == Writes(meets, discounts, k, id, old(products[id]))
    {
      var p, d := products[id], discounts[k];
      if p.business != Some(d.business) { return false; }
      if Chosen(meets, d, id) {
        var price, percent := CalculateDiscountedPrice(p.base, d);
        if p.applied.Some? && p.applied.value != k {
          if p.applied.value < |discounts| {
            var existing, _ := CalculateDiscountedPrice(p.base, discounts[p.applied.value]);
            if existing <= price { return false; }
          }
        }
        products := products[id :=
                             p.(applied := Some(k), price := Some(Round(price)), percent := Some(Round(percent)))];
        return true;
      } else if p.applied == Some(k) {
        products := products[id := p.(applied := None, price := None, percent := None)];
        return true;
      }
      return false;
    }

    method ApplyDiscountToMatchingProducts(k: Id, now: int) returns (updated: nat)
      modifies this`products
      ensures State() == Applied(meets, old(State()), k, now)
      ensures updated == if k < |discounts| && Live(discounts[k], now)
        then WriteCount(meets, old(State()), k, |old(products)|) else 0
    {
      updated := 0;
      if k >= |discounts| || !discounts[k].active { return; }
      if discounts[k].start.Some? && discounts[k].start.value > now { return; }
      if discounts[k].end.Some? && discounts[k].end.value < now { return; }
      ghost var before := State();
      for id := 0 to |products|
        invariant |products| == |before.products|
        invariant State() == AppliedUpTo(meets, before, k, id)
        invariant updated == WriteCount(meets, before, k, id)
      {
        var wrote := ApplyTo(k, id);
        if wrote { updated := updated + 1; }
        assert products == AppliedUpTo(meets, before, k, id + 1).products;
      }
    }

    method SyncProductWithDiscounts(id: Id, now: int)
      modifies this`products
      ensures State() == Synced(meets, old(State()), id, now)
    {
      if id >= |products| { return; }
      var p := products[id];
      if p.business.None? {
        assert products[id := p] == products;
        return;
      }
      var bestDiscount: Option<Id>, bestPrice, bestPercent := None, p.base, 0.0;
      for n := 0 to |discounts|
        invariant products == old(products)
        invariant Best(bestDiscount, bestPrice, bestPercent) == BestUpTo(meets, discounts, id, p, now, n)
      {
        if Considered(meets, discounts[n], id, p, now) {
          var price, percent := CalculateDiscountedPrice(p.base, discounts[n]);
          if price < bestPrice {
            bestDiscount, bestPrice, bestPercent := Some(n), price, percent;
          }
        }
      }
      if bestDiscount.Some? {
        products := products[id :=
                             p.(applied := bestDiscount, price := Some(Round(bestPrice)),
                                percent := Some(Round(bestPercent)))];
      } else if p.applied.Some? {
        products := products[id := p.(applied := None, price := None, percent := None)];
      }
    }
  }

  // ---------- Applying finds the lowest price ----------

  /** A live discount of the product's vendor that is meant for the product, by rule or by hand. */
  predicate InPlay(meets: Meets, cat: Catalog, id: Id, now: int, k: Id)
    requires id < |cat.products|
  {
    && k < |cat.discounts| && Live(cat.discounts[k], now)
    && cat.products[id].business == Some(cat.discounts[k].business) && Chosen(meets, cat.discounts[k], id)
  }

  /** Applies discounts one after the other; each is skipped unless it is live. */
  function Run(meets: Meets, cat: Catalog, ks: seq<Id>, now: int): Catalog {
    if ks == [] then cat else Applied(meets, Run(meets, cat, ks[..|ks| - 1], now), ks[|ks| - 1], now)
  }

  ghost predicate SomeInPlay(meets: Meets, cat: Catalog, id: Id, now: int, ks: seq<Id>)
    requires id < |cat.products|
  {
    exists k: Id :: k in ks && InPlay(meets, cat, id, now, k)
  }

  /** `p` stores a discount of `ks` in play with the lowest price, or is as it was if there is none. */
  ghost predicate StoresLowest(meets: Meets, cat: Catalog, id: Id, now: int, ks: seq<Id>, p: Product)
    requires id < |cat.products|
  {
    var p0 := cat.products[id];
    if !SomeInPlay(meets, cat, id, now, ks) then p == p0
    else
      && p.applied.Some? && p.applied.value in ks && InPlay(meets, cat, id, now, p.applied.value)
      && p == Priced(p0, cat.discounts[p.applied.value], p.applied.value)
      && forall k :: k in ks && InPlay(meets, cat, id, now, k) ==>
           After(p0.base, cat.discounts[p.applied.value]) <= After(p0.base, cat.discounts[k])
  }

  lemma StoresLowestStep(meets: Meets, cat: Catalog, id: Id, now: int, ks: seq<Id>, k: Id, p: Product)
    requires id < |cat.products| && cat.products[id].applied == None && StoresLowest(meets, cat, id, now, ks, p)
    ensures StoresLowest(meets, cat, id, now, ks + [k],
      if k >= |cat.discounts| || !Live(cat.discounts[k], now) then p else AppliedTo(meets, cat.discounts, k, id, p))
  {
    assert forall j :: j in ks + [k] <==> j in ks || j == k;
    assert SomeInPlay(meets, cat, id, now, ks + [k]) <==>
      SomeInPlay(meets, cat, id, now, ks) || InPlay(meets, cat, id, now, k);
  }

  lemma {:induction false} RunStoresLowest(meets: Meets, cat: Catalog, id: Id, now: int, ks: seq<Id>)
    requires id < |cat.products| && cat.products[id].applied == None
    ensures var after := Run(meets, cat, ks, now);
      |after.products| == |cat.products| && after.discounts == cat.discounts
      && StoresLowest(meets, cat, id, now, ks, after.products[id])
  {
    if ks == [] {
      assert !SomeInPlay(meets, cat, id, now, ks);
    } else {
      var rest, k := ks[..|ks| - 1], ks[|ks| - 1];
      RunStoresLowest(meets, cat, id, now, rest);
      StoresLowestStep(meets, cat, id, now, rest, k, Run(meets, cat, rest, now).products[id]);
      assert ks == rest + [k];
    }
  }

  /** The sequence contains every live discount of the product's vendor. */
  ghost predicate Covers(cat: Catalog, id: Id, now: int, ks: seq<Id>)
    requires id < |cat.products|
  {
    forall k | 0 <= k < |cat.discounts| && Live(cat.discounts[k], now) ::
      cat.products[id].business == Some(cat.discounts[k].business) ==> k in ks
  }

  /**
    From a product without a discount, applying the vendor's live discounts in any sequence that covers
    them stores the lowest price over all that are meant for the product, by rule or by hand.
   */
  lemma ApplyingFindsLowest(meets: Meets, cat: Catalog, id: Id, now: int, ks: seq<Id>)
    requires id < |cat.products| && cat.products[id].applied == None && Covers(cat, id, now, ks)
    ensures |Run(meets, cat, ks, now).products| == |cat.products|
    ensures var p0, p := cat.products[id], Run(meets, cat, ks, now).products[id];
      && (p != p0 ==> p.applied.Some? && InPlay(meets, cat, id, now, p.applied.value)
                      && p == Priced(p0, cat.discounts[p.applied.value], p.applied.value))
      && forall k: Id :: InPlay(meets, cat, id, now, k) ==>
           p.applied.Some? && p.applied.value < |cat.discounts|
           && After(p0.base, cat.discounts[p.applied.value]) <= After(p0.base, cat.discounts[k])
  {
    RunStoresLowest(meets, cat, id, now, ks);
  }

  // ---------- Syncing finds the lowest price below the base ----------

  lemma {:induction false} BestIsLowest(meets: Meets, discounts: seq<Discount>, id: Id, p: Product, now: int, n: nat)
    requires n <= |discounts|
    ensures var best := BestUpTo(meets, discounts, id, p, now, n);
      && (best.discount.None? ==> best.price == p.base)
      && (best.discount.Some? ==>
           var k := best.discount.value;
           k < n && Considered(meets, discounts[k], id, p, now) && best.price == After(p.base, discounts[k]) < p.base
           && best.percent == SavingPercent(p.base, discounts[k]))
      && forall k :: 0 <= k < n && Considered(meets, discounts[k], id, p, now) ==>
        best.price <= After(p.base, discounts[k])
  {
    if n > 0 { BestIsLowest(meets, discounts, id, p, now, n - 1); }
  }

  /** No live discount of the vendor lists the product by hand. */
  ghost predicate NoOverrides(cat: Catalog, id: Id, now: int)
    requires id < |cat.products|
  {
    forall k | 0 <= k < |cat.discounts| && Live(cat.discounts[k], now) ::
      cat.products[id].business == Some(cat.discounts[k].business) ==>
          id !in cat.discounts[k].includes && id !in cat.discounts[k].excludes
  }

  ghost predicate AnyConsidered(meets: Meets, cat: Catalog, id: Id, now: int)
    requires id < |cat.products|
  {
    exists k :: 0 <= k < |cat.discounts| && Considered(meets, cat.discounts[k], id, cat.products[id], now)
  }

  ghost predicate AnySaves(meets: Meets, cat: Catalog, id: Id, now: int)
    requires id < |cat.products|
  {
    exists k :: 0 <= k < |cat.discounts| && Considered(meets, cat.discounts[k], id, cat.products[id], now)
      && After(cat.products[id].base, cat.discounts[k]) < cat.products[id].base
  }

  lemma SamePercent(base: real, d: Discount, e: Discount)
    requires After(base, d) == After(base, e)
    ensures SavingPercent(base, d) == SavingPercent(base, e)
  {
    if base > 0.0 { assert Saving(base, d) == Saving(base, e); }
  }

  /**
    With no override by hand, applying in any covering sequence and syncing store the same price and percentage
    if and only if no discount applies, or one that applies lowers the price: applying stores even a discount
    that saves nothing, and syncing does not.
   */
  lemma LoopsAgreeIff(meets: Meets, cat: Catalog, id: Id, now: int, ks: seq<Id>)
    requires id < |cat.products| && cat.products[id].business.Some?
    requires cat.products[id].applied == None && cat.products[id].price == None && cat.products[id].percent == None
    requires Covers(cat, id, now, ks) && NoOverrides(cat, id, now)
    ensures |Run(meets, cat, ks, now).products| == |cat.products|
    ensures var a, s := Run(meets, cat, ks, now).products[id], Synced(meets, cat, id, now).products[id];
      a.price == s.price && a.percent == s.percent
      <==> !AnyConsidered(meets, cat, id, now) || AnySaves(meets, cat, id, now)
  {
    var p := cat.products[id];
    ApplyingFindsLowest(meets, cat, id, now, ks);
    BestIsLowest(meets, cat.discounts, id, p, now, |cat.discounts|);
    InPlayIsConsidered(meets, cat, id, now);
    var a := Run(meets, cat, ks, now).products[id];
    var best := BestUpTo(meets, cat.discounts, id, p, now, |cat.discounts|);
    if AnySaves(meets, cat, id, now) {
      assert best.discount.Some?;
      assert InPlay(meets, cat, id, now, best.discount.value);
      assert After(p.base, cat.discounts[a.applied.value]) == best.price;
      SamePercent(p.base, cat.discounts[a.applied.value], cat.discounts[best.discount.value]);
    }
  }

  lemma InPlayIsConsidered(meets: Meets, cat: Catalog, id: Id, now: int)
    requires id < |cat.products| && NoOverrides(cat, id, now)
    ensures forall k :: 0 <= k < |cat.discounts| ==>
      (InPlay(meets, cat, id, now, k) <==> Considered(meets, cat.discounts[k], id, cat.products[id], now))
  {
  }

  // ---------- With overrides by hand ----------

  /** The lowest price over the discounts that are wanted, if any is. */
  function Lowest(discounts: seq<Discount>, wanted: Discount -> bool, base: real): Option<real> {
    if discounts == [] then None
    else
      var prior, d := Lowest(discounts[..|discounts| - 1], wanted, base), discounts[|discounts| - 1];
      if !wanted(d) then prior
      else if prior.Some? && prior.value <= After(base, d) then prior
      else Some(After(base, d))
  }

  lemma {:induction false} LowestMeaning(discounts: seq<Discount>, wanted: Discount -> bool, base: real)
    ensures Lowest(discounts, wanted, base).Some? <==> exists k :: 0 <= k < |discounts| && wanted(discounts[k])
    ensures Lowest(discounts, wanted, base).Some? ==>
      exists k :: 0 <= k < |discounts| && wanted(discounts[k])
          && After(base, discounts[k]) == Lowest(discounts, wanted, base).value
    ensures forall k :: 0 <= k < |discounts| && wanted(discounts[k]) ==>
      Lowest(discounts, wanted, base).Some? && Lowest(discounts, wanted, base).value <= After(base, discounts[k])
  {
    if discounts != [] {
      var n := |discounts| - 1;
      LowestMeaning(discounts[..n], wanted, base);
      if Lowest(discounts[..n], wanted, base).Some? {
        var k :| 0 <= k < n && wanted(discounts[..n][k])
          && After(base, discounts[..n][k]) == Lowest(discounts[..n], wanted, base).value;
        assert discounts[k] == discounts[..n][k];
      }
    }
  }

  /** A price that is at most every wanted one and is one of them is the lowest. */
  lemma LowestIs(discounts: seq<Discount>, wanted: Discount -> bool, base: real, k: nat)
    requires k < |discounts| && wanted(discounts[k])
    requires forall j :: 0 <= j < |discounts| && wanted(discounts[j]) ==>
      After(base, discounts[k]) <= After(base, discounts[j])
    ensures Lowest(discounts, wanted, base) == Some(After(base, discounts[k]))
  {
    LowestMeaning(discounts, wanted, base);
  }

  function Stored(price: Option<real>): Option<real> {
    if price.Some? then Some(Round(price.value)) else None
  }

  /** Live discounts of the vendor that are meant for the product, overrides by hand first. */
  function MeantFor(meets: Meets, id: Id, p: Product, now: int): Discount -> bool {
    (d: Discount) => Live(d, now) && p.business == Some(d.business) && Chosen(meets, d, id)
  }

  /** Live discounts of the vendor whose rule matches the product, and that lower its price. */
  function SavingFor(meets: Meets, id: Id, p: Product, now: int): Discount -> bool {
    (d: Discount) => Considered(meets, d, id, p, now) && After(p.base, d) < p.base
  }

  /** Applying stores the lowest price over the discounts meant for the product. */
  lemma ApplyingStoresLowest(meets: Meets, cat: Catalog, id: Id, now: int, ks: seq<Id>)
    requires id < |cat.products| && cat.products[id].applied == None && cat.products[id].price == None
    requires Covers(cat, id, now, ks)
    ensures |Run(meets, cat, ks, now).products| == |cat.products|
    ensures var p := cat.products[id];
      Run(meets, cat, ks, now).products[id].price == Stored(Lowest(cat.discounts, MeantFor(meets, id, p, now), p.base))
  {
    var p0, wanted := cat.products[id], MeantFor(meets, id, cat.products[id], now);
    ApplyingFindsLowest(meets, cat, id, now, ks);
    var p := Run(meets, cat, ks, now).products[id];
    forall k | 0 <= k < |cat.discounts| ensures InPlay(meets, cat, id, now, k) == wanted(cat.discounts[k]) {}
    if p != p0 {
      LowestIs(cat.discounts, wanted, p0.base, p.applied.value);
    } else {
      LowestMeaning(cat.discounts, wanted, p0.base);
    }
  }

  /** Syncing stores the lowest price over the discounts whose rule matches and that save something. */
  lemma SyncingStoresLowest(meets: Meets, cat: Catalog, id: Id, now: int)
    requires id < |cat.products| && cat.products[id].business.Some?
    requires cat.products[id].applied == None && cat.products[id].price == None
    ensures var p := cat.products[id];
      Synced(meets, cat, id, now).products[id].price
          == Stored(Lowest(cat.discounts, SavingFor(meets, id, p, now), p.base))
  {
    var p, wanted := cat.products[id], SavingFor(meets, id, cat.products[id], now);
    BestIsLowest(meets, cat.discounts, id, p, now, |cat.discounts|);
    var best := BestUpTo(meets, cat.discounts, id, p, now, |cat.discounts|);
    if best.discount.Some? {
      LowestIs(cat.discounts, wanted, p.base, best.discount.value);
    } else {
      LowestMeaning(cat.discounts, wanted, p.base);
    }
  }

  /**
    Whatever is overridden by hand: applying in any covering sequence and syncing store the same price if and
    only if the lowest price over the discounts meant for the product rounds to the lowest saving price over
    those whose rule matches, or there is neither.
   */
  lemma PricesAgreeIff(meets: Meets, cat: Catalog, id: Id, now: int, ks: seq<Id>)
    requires id < |cat.products| && cat.products[id].business.Some? && Covers(cat, id, now, ks)
    requires cat.products[id].applied == None && cat.products[id].price == None
    ensures |Run(meets, cat, ks, now).products| == |cat.products|
    ensures var p := cat.products[id];
      Run(meets, cat, ks, now).products[id].price == Synced(meets, cat, id, now).products[id].price
      <==> Stored(Lowest(cat.discounts, MeantFor(meets, id, p, now), p.base))
           == Stored(Lowest(cat.discounts, SavingFor(meets, id, p, now), p.base))
  {
    ApplyingStoresLowest(meets, cat, id, now, ks);
    SyncingStoresLowest(meets, cat, id, now);
  }

  /** A product excluded by hand from everything that matches it gets no discount, until the next sync gives it one. */
  lemma ExclusionIsUndone(meets: Meets, cat: Catalog, id: Id, now: int, ks: seq<Id>)
    requires id < |cat.products| && cat.products[id].applied == None && Covers(cat, id, now, ks)
    requires forall k :: 0 <= k < |cat.discounts| && Considered(meets, cat.discounts[k], id, cat.products[id], now) ==>
      id in cat.discounts[k].excludes
    requires forall k :: 0 <= k < |cat.discounts| ==> id !in cat.discounts[k].includes
    requires AnySaves(meets, cat, id, now)
    ensures |Run(meets, cat, ks, now).products| == |cat.products|
    ensures Run(meets, cat, ks, now).products[id].applied == None
    ensures Synced(meets, Run(meets, cat, ks, now), id, now).products[id].applied.Some?
  {
    ApplyingFindsLowest(meets, cat, id, now, ks);
    RunStoresLowest(meets, cat, id, now, ks);
    var after := Run(meets, cat, ks, now);
    assert after.products[id] == cat.products[id];
    BestIsLowest(meets, after.discounts, id, after.products[id], now, |after.discounts|);
  }

  /** A discount that saves nothing: applying stores it at the base price, and syncing stores none. */
  lemma EmptyDiscountDiffers(meets: Meets)
    ensures var d := Discount(1, StoreWide, 0.0, None, true, [], true, None, None, [], []);
      var cat := Catalog([Product(Some(1), 100.0, None, None, None)], [d]);
      && |Run(meets, cat, [0], 0).products| == 1 && Run(meets, cat, [0], 0).products[0].price == Some(100.0)
      && Synced(meets, cat, 0, 0).products[0].price == None
  {
    var d := Discount(1, StoreWide, 0.0, None, true, [], true, None, None, [], []);
    var cat := Catalog([Product(Some(1), 100.0, None, None, None)], [d]);
    assert After(100.0, d) == 100.0 && Round(100.0) == 100.0 by { CentsFromInt(10000); }
    ApplyingStoresLowest(meets, cat, 0, 0, [0]);
    LowestIs([d], MeantFor(meets, 0, cat.products[0], 0), 100.0, 0);
    SyncingStoresLowest(meets, cat, 0, 0);
    LowestMeaning([d], SavingFor(meets, 0, cat.products[0], 0), 100.0);
  }

  // ---------- What one discount stores ----------

  /** The value is a percentage of the base price; otherwise it is an amount. */
  predicate TakesPercent(d: Discount) {
    match d.kind
    case Percentage => true
    case FlashPercentage => true
    case Fixed => false
    case FlashFixed => false
    case StoreWide => d.valueType != Some(ByAmount)
    case CategorySpecific => d.valueType == Some(ByPercent)
  }

  /** The base price less the discount, never below zero. */
  function Reduced(base: real, d: Discount): real {
    if base <= 0.0 then 0.0
    else if TakesPercent(d) then Max0(base * (100.0 - d.value) / 100.0)
    else Max0(base - d.value)
  }

  /** The percentage of the base price that this takes off, at most all of it. */
  function PercentOff(base: real, d: Discount): real {
    if base <= 0.0 then 0.0
    else
      var percent := if TakesPercent(d) then d.value else 100.0 * d.value / base;
      if percent > 100.0 then 100.0 else percent
  }

  lemma AfterIsReduced(base: real, d: Discount)
    ensures After(base, d) == Reduced(base, d)
  {
    if base > 0.0 { PercentLeaves(base, d.value); }
  }

  lemma PercentLeaves(base: real, value: real)
    requires base > 0.0
    ensures base - PercentOf(base, value) == base * (100.0 - value) / 100.0
    ensures PercentOf(base, value) <= base <==> value <= 100.0
  {
    if value <= 100.0 { assert base * value <= base * 100.0; } else { assert base * value > base * 100.0; }
  }

  lemma ShareIsPercentOff(base: real, d: Discount)
    ensures SavingPercent(base, d) == PercentOff(base, d)
  {
    if base > 0.0 {
      PercentLeaves(base, d.value);
      WholeShare(base);
      if TakesPercent(d) { PercentShare(base, d.value); } else { AmountShare(base, d.value); }
    }
  }

  lemma WholeShare(base: real)
    requires base > 0.0
    ensures base / base * 100.0 == 100.0
  {
  }

  lemma PercentShare(base: real, value: real)
    requires base > 0.0
    ensures PercentOf(base, value) / base * 100.0 == value
  {
    assert base * value / 100.0 == base * (value / 100.0);
    assert base * (value / 100.0) / base == value / 100.0;
  }

  lemma AmountShare(base: real, value: real)
    requires base > 0.0
    ensures value / base * 100.0 == 100.0 * value / base
    ensures value <= base <==> 100.0 * value / base <= 100.0
  {
    var share := value / base;
    assert share * base == value;
    assert 100.0 * value == (100.0 * share) * base;
    assert 100.0 * value / base == 100.0 * share;
    if share <= 1.0 { assert share * base <= 1.0 * base; } else { assert share * base > 1.0 * base; }
  }

  /** The product with discount `k` stored on it. */
  function Carrying(p: Product, k: Id, d: Discount): Product {
    p.(applied := Some(k), price := Some(Round(Reduced(p.base, d))), percent := Some(Round(PercentOff(p.base, d))))
  }

  /** Of the product's vendor, switched on, and within its dates, if it has any. */
  predicate Running(d: Discount, p: Product, now: int) {
    p.business == Some(d.business) && d.active
    && !(d.start.Some? && now < d.start.value) && !(d.end.Some? && d.end.value < now)
  }

  /**
    Applying a discount that is running for a product stores it, with the price and percentage its kind says, if it
    includes or matches the product and does not exclude it, unless another one stored there costs the customer no
    more; otherwise the product loses just this discount.
   */
  lemma ApplyingStores(meets: Meets, cat: Catalog, k: Id, id: Id, now: int)
    requires k < |cat.discounts| && id < |cat.products|
    ensures |Applied(meets, cat, k, now).products| == |cat.products|
    ensures var d, p := cat.discounts[k], cat.products[id];
      var wanted := id !in d.excludes
        && (id in d.includes || d.kind == StoreWide || Matches(meets, d.matchAll, d.conditions, id));
      var p' := Applied(meets, cat, k, now).products[id];
      if !Running(d, p, now) then p' == p
      else if wanted then
        p' == if p.applied.Some? && p.applied.value != k && p.applied.value < |cat.discounts|
                 && Reduced(p.base, cat.discounts[p.applied.value]) <= Reduced(p.base, d)
              then p else Carrying(p, k, d)
      else if p.applied == Some(k) then p' == p.(applied := None, price := None, percent := None)
      else p' == p
  {
    AfterIsReduced(cat.products[id].base, cat.discounts[k]);
    ShareIsPercentOff(cat.products[id].base, cat.discounts[k]);
    var other := cat.products[id].applied;
    if other.Some? && other.value < |cat.discounts| {
      AfterIsReduced(cat.products[id].base, cat.discounts[other.value]);
    }
  }

  /** Syncing stores only a discount that is running for the product and matches it, and that lowers its price. */
  lemma SyncingStores(meets: Meets, cat: Catalog, id: Id, now: int)
    requires id < |cat.products| && cat.products[id].business.Some?
    ensures var p, p' := cat.products[id], Synced(meets, cat, id, now).products[id];
      p'.applied.Some? ==>
        var k := p'.applied.value;
        && k < |cat.discounts| && p' == Carrying(p, k, cat.discounts[k]) && Running(cat.discounts[k], p, now)
        && (cat.discounts[k].kind == StoreWide
            || Matches(meets, cat.discounts[k].matchAll, cat.discounts[k].conditions, id))
        && Reduced(p.base, cat.discounts[k]) < p.base
  {
    var p := cat.products[id];
    BestStored(meets, cat.discounts, id, p, now, |cat.discounts|);
    var best := BestUpTo(meets, cat.discounts, id, p, now, |cat.discounts|);
    if best.discount.Some? {
      AfterIsReduced(p.base, cat.discounts[best.discount.value]);
      ShareIsPercentOff(p.base, cat.discounts[best.discount.value]);
    }
  }

  lemma {:induction false} BestStored(meets: Meets, discounts: seq<Discount>, id: Id, p: Product, now: int, n: nat)
    requires n <= |discounts|
    ensures var best := BestUpTo(meets, discounts, id, p, now, n);
      && best.price <= p.base
      && match best.discount
         case None => best.price == p.base
         case Some(k) =>
           && k < n && Considered(meets, discounts[k], id, p, now)
           && best == Best(Some(k), After(p.base, discounts[k]), SavingPercent(p.base, discounts[k]))
           && best.price < p.base
  {
    if n > 0 { BestStored(meets, discounts, id, p, now, n - 1); }
  }

  /** Syncing does not heed overrides: a discount given by hand alone is applied, and the next sync takes it away. */
  lemma OverrideIsUndone(meets: Meets, cat: Catalog, id: Id, now: int, k: Id)
    requires id < |cat.products| && InPlay(meets, cat, id, now, k) && cat.products[id].applied == None
    requires !AnyConsidered(meets, cat, id, now)
    ensures Applied(meets, cat, k, now).products[id].applied == Some(k)
    ensures Synced(meets, Applied(meets, cat, k, now), id, now).products[id].applied == None
  {
    var applied := Applied(meets, cat, k, now);
    BestIsLowest(meets, cat.discounts, id, applied.products[id], now, |cat.discounts|);
  }
}
