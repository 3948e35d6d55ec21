/** What component costs, item totals and the itemized breakdown mean to a caller. */
module PricingLaws {
  import opened Prelude
  import opened Pricing

  // ---------- Sums grouped by what is bought ----------

  predicate Unrepeated<K(==)>(keys: seq<K>) {
    forall i, j :: 0 <= i < j < |keys| ==> keys[i] != keys[j]
  }

  /** `keys` lists, once each, everything that `s` names. */
  predicate Lists<S(==), K(==)>(keys: seq<K>, s: seq<S>, key: S -> K) {
    Unrepeated(keys) && forall x :: x in s ==> key(x) in keys
  }

  function Charge<S, K>(key: S -> K, unit: K -> real, weight: S -> real): S -> real {
    (x: S) => Times(unit(key(x)), weight(x))
  }

  /** What an entry weighs towards `k`. */
  function Toward<S, K(==)>(key: S -> K, k: K, weight: S -> real): S -> real {
    (x: S) => if key(x) == k then weight(x) else 0.0
  }

  /** The price of `k` times all that is taken of it. */
  function Line<S, K(==)>(s: seq<S>, key: S -> K, unit: K -> real, weight: S -> real): K -> real {
    (k: K) => Times(unit(k), Sum(s, Toward(key, k, weight)))
  }

  function Only<K(==)>(k: K, amount: real): K -> real {
    (j: K) => if j == k then amount else 0.0
  }

  lemma {:induction false} SumOnly<K>(keys: seq<K>, k: K, amount: real)
    requires Unrepeated(keys)
    ensures Sum(keys, Only(k, amount)) == if k in keys then amount else 0.0
  {
    if keys != [] {
      var rest := keys[..|keys| - 1];
      SumOnly(rest, k, amount);
      assert keys == rest + [keys[|rest|]];
    }
  }

  lemma LineGrows<S, K>(s: seq<S>, x: S, key: S -> K, unit: K -> real, weight: S -> real, k: K)
    ensures Line(s + [x], key, unit, weight)(k)
      == Line(s, key, unit, weight)(k) + Only(key(x), Charge(key, unit, weight)(x))(k)
  {
    SumAppend(s, x, Toward(key, k, weight));
    TimesSum(unit(k), Sum(s, Toward(key, k, weight)), Toward(key, k, weight)(x));
  }

  lemma TimesSum(price: real, x: real, y: real)
    ensures Times(price, x + y) == Times(price, x) + Times(price, y)
    ensures Times(price, 0.0) == 0.0
  {
  }

  /** A sum over entries is a sum over what they name. */
  lemma {:induction false} GroupedSum<S, K>(
    s: seq<S>, key: S -> K, unit: K -> real, weight: S -> real, keys: seq<K>)
    requires Lists(keys, s, key)
    ensures Sum(s, Charge(key, unit, weight)) == Sum(keys, Line(s, key, unit, weight))
  {
    if s == [] {
      SumZero(keys, Line(s, key, unit, weight));
    } else {
      var rest, x := s[..|s| - 1], s[|s| - 1];
      assert s == rest + [x];
      GroupedSum(rest, key, unit, weight, keys);
      SumOnly(keys, key(x), Charge(key, unit, weight)(x));
      forall k | k in keys
        ensures Line(s, key, unit, weight)(k)
          == Line(rest, key, unit, weight)(k) + Only(key(x), Charge(key, unit, weight)(x))(k)
      {
        LineGrows(rest, x, key, unit, weight, k);
      }
      SumOfSums(keys, Line(s, key, unit, weight), Line(rest, key, unit, weight),
                Only(key(x), Charge(key, unit, weight)(x)));
    }
  }

  /** A list whose entries are refused unless `fine` costs the price of each thing times all that is taken of it. */
  lemma CostsByKey<S, K>(s: seq<S>, cost: S -> Price, fine: S -> bool,
                         key: S -> K, unit: K -> real, weight: S -> real, keys: seq<K>)
    requires Lists(keys, s, key)
    requires forall x :: x in s ==> cost(x) == if fine(x) then Cost(Charge(key, unit, weight)(x)) else Refused
    ensures Costs(s, cost)
      == if forall x :: x in s ==> fine(x) then Cost(Sum(keys, Line(s, key, unit, weight))) else Refused
  {
    CostsMeaning(s, cost);
    if forall x :: x in s ==> fine(x) {
      SumAgree(s, Amounts(cost), Charge(key, unit, weight));
      GroupedSum(s, key, unit, weight, keys);
    } else {
      var x :| x in s && !fine(x);
      assert cost(x).Refused?;
    }
  }

  function Pieces(quantity: Option<real>): real {
    Default(quantity, 1.0)
  }

  // ---------- Styles ----------

  function StyleId(s: StyleSelection): Id { s.id }

  function StylePieces(s: StyleSelection): real { Pieces(s.quantity) }

  function StylePrice(c: Clothing): Id -> real {
    (id: Id) =>
      match Find(c.styles, IsStyle(id))
      case None => 0.0
      case Some(k) => c.styles[k].price
  }

  predicate OffersStyle(c: Clothing, id: Id) {
    exists t :: t in c.styles && t.id == id
  }

  lemma StyleEntry(c: Clothing, s: StyleSelection)
    ensures StyleUnit(c)(s)
      == if OffersStyle(c, s.id) then Cost(Charge(StyleId, StylePrice(c), StylePieces)(s)) else Refused
  {
    match Find(c.styles, IsStyle(s.id))
    case None =>
    case Some(k) =>
      assert c.styles[k] in c.styles;
      assert StylePrice(c)(StyleId(s)) == c.styles[k].price && StylePieces(s) == Default(s.quantity, 1.0);
  }

  /** Refused if and only if a style is named that the garment lacks; else each style's price times the pieces taken. */
  lemma StyleCostMeaning(p: Product, s: seq<StyleSelection>, styles: seq<Id>)
    requires p.clothing.Some? && Lists(styles, s, StyleId)
    ensures var c := p.clothing.value;
      StyleCost(p, s) == if forall x :: x in s ==> OffersStyle(c, x.id)
        then Cost(Sum(styles, Line(s, StyleId, StylePrice(c), StylePieces))) else Refused
  {
    var c := p.clothing.value;
    var fine := (x: StyleSelection) => OffersStyle(c, x.id);
    forall x | x in s
      ensures StyleUnit(c)(x) == if fine(x) then Cost(Charge(StyleId, StylePrice(c), StylePieces)(x)) else Refused
    {
      StyleEntry(c, x);
    }
    CostsByKey(s, StyleUnit(c), fine, StyleId, StylePrice(c), StylePieces, styles);
  }

  // ---------- Fabrics of a garment ----------

  function FabricId(s: FabricSelection): Id { s.id }

  function YardPrice(c: Clothing): Id -> real {
    (id: Id) =>
      match Find(c.fabrics, IsFabric(id))
      case None => 0.0
      case Some(k) => c.fabrics[k].pricePerYard
  }

  function YardsTaken(c: Clothing): FabricSelection -> real {
    (s: FabricSelection) =>
      match Find(c.fabrics, IsFabric(s.id))
      case None => 0.0
      case Some(k) => Times(CutYards(c, c.fabrics[k], s), Pieces(s.quantity))
  }

  /** The fabric is there, with the yards one piece is cut from. */
  predicate HasYards(c: Clothing, s: FabricSelection) {
    match Find(c.fabrics, IsFabric(s.id))
    case None => false
    case Some(k) => CutYards(c, c.fabrics[k], s) <= c.fabrics[k].yards
  }

  lemma TimesReordered(x: real, y: real, z: real)
    ensures Times(Times(x, y), z) == Times(y, Times(x, z))
  {
  }

  lemma FabricEntry(p: Product, s: FabricSelection)
    requires p.kind == ClothingKind && p.clothing.Some?
    ensures var c := p.clothing.value;
      FabricUnit(p)(s)
      == if HasYards(c, s) then Cost(Charge(FabricId, YardPrice(c), YardsTaken(c))(s)) else Refused
  {
    var c := p.clothing.value;
    match Find(c.fabrics, IsFabric(s.id))
    case None =>
    case Some(k) => TimesReordered(CutYards(c, c.fabrics[k], s), c.fabrics[k].pricePerYard, Pieces(s.quantity));
  }

  /** Refused if and only if a fabric is missing or short; else each fabric's yard price times the yards cut from it. */
  lemma FabricCostMeaning(p: Product, s: seq<FabricSelection>, fabrics: seq<Id>)
    requires p.kind == ClothingKind && p.clothing.Some? && Lists(fabrics, s, FabricId)
    ensures var c := p.clothing.value;
      FabricCost(p, s) == if forall x :: x in s ==> HasYards(c, x)
        then Cost(Round(Sum(fabrics, Line(s, FabricId, YardPrice(c), YardsTaken(c))))) else Refused
  {
    var c := p.clothing.value;
    var fine := (x: FabricSelection) => HasYards(c, x);
    forall x | x in s
      ensures FabricUnit(p)(x)
        == if fine(x) then Cost(Charge(FabricId, YardPrice(c), YardsTaken(c))(x)) else Refused
    {
      FabricEntry(p, x);
    }
    CostsByKey(s, FabricUnit(p), fine, FabricId, YardPrice(c), YardsTaken(c), fabrics);
  }

  /** Yards that are named are cut, or the least cut if that is more; a piece never gets less than the least cut. */
  lemma CutYardsMeaning(c: Clothing, f: Fabric, s: FabricSelection)
    requires s.yardage >= 0.0 && f.minCut >= 0.0
    ensures s.yardage > 0.0 ==> CutYards(c, f, s) == if s.yardage < f.minCut then f.minCut else s.yardage
    ensures CutYards(c, f, s) > 0.0 ==> CutYards(c, f, s) >= f.minCut
    ensures s.yardage == 0.0 && s.size == "" ==> CutYards(c, f, s) == 0.0
  {
  }

  /** Sizes are the same in capital and small letters, and in nothing else. */
  lemma SizesIgnoreCase(a: char, b: char)
    requires 'A' <= a <= 'Z' || 'a' <= a <= 'z'
    requires 'A' <= b <= 'Z' || 'a' <= b <= 'z'
    ensures Lower([a]) == Lower([b]) <==> a == b || a as int - b as int == 32 || b as int - a as int == 32
  {
    assert Lower([a])[0] == Lower([b])[0] <==> Lower([a]) == Lower([b]);
  }

  /** The first entry of a chart for a size, whatever the case of its letters, gives these yards. */
  predicate Charted<T>(chart: seq<T>, size: T -> string, yards: T -> real, wanted: string, n: real) {
    exists k :: 0 <= k < |chart| && Lower(size(chart[k])) == Lower(wanted) && yards(chart[k]) == n
      && forall j :: 0 <= j < k ==> Lower(size(chart[j])) != Lower(wanted)
  }

  predicate Uncharted(c: Clothing, size: string) {
    forall y :: y in c.yardsPerSize ==> Lower(y.size) != Lower(size)
  }

  function SizeOf(y: SizeYards): string { y.size }

  function YardsOf(y: SizeYards): real { y.yards }

  function VariantSize(v: SizeVariant): string { v.size }

  function VariantYards(v: SizeVariant): real { v.yards }

  /** Where no yards are named, the garment's own chart counts first, and then the fabric's. */
  lemma ChartsInTurn(c: Clothing, f: Fabric, s: FabricSelection, n: real)
    requires s.yardage == 0.0 && s.size != "" && f.minCut == 0.0 && n != 0.0
    ensures Charted(c.yardsPerSize, SizeOf, YardsOf, s.size, n) ==> CutYards(c, f, s) == n
    ensures Uncharted(c, s.size) && Charted(f.variants, VariantSize, VariantYards, s.size, n) ==> CutYards(c, f, s) == n
  {
    var y := Find(c.yardsPerSize, (y: SizeYards) => Lower(y.size) == Lower(s.size));
    var v := Find(f.variants, OfSize(s.size));
    if Charted(c.yardsPerSize, SizeOf, YardsOf, s.size, n) {
      var k :| 0 <= k < |c.yardsPerSize| && Lower(c.yardsPerSize[k].size) == Lower(s.size)
        && c.yardsPerSize[k].yards == n && forall j :: 0 <= j < k ==> Lower(c.yardsPerSize[j].size) != Lower(s.size);
      assert y == Some(k);
    }
    if Uncharted(c, s.size) && Charted(f.variants, VariantSize, VariantYards, s.size, n) {
      var k :| 0 <= k < |f.variants| && Lower(f.variants[k].size) == Lower(s.size) && f.variants[k].yards == n
        && forall j :: 0 <= j < k ==> Lower(f.variants[j].size) != Lower(s.size);
      assert y.None?;
      assert OfSize(s.size)(f.variants[k]) && forall j :: 0 <= j < k ==> !OfSize(s.size)(f.variants[j]);
      assert v == Some(k);
    }
  }

  // ---------- A fabric sold by itself ----------

  function OwnYards(f: Fabric): FabricSelection -> real {
    (s: FabricSelection) => Times(YardsBySize(f, s, s.yardage), Pieces(s.quantity))
  }

  /** The fabric is meant, by its own id or its product's, with yards between the least cut and the stock. */
  predicate SellsCut(p: Product, f: Fabric, s: FabricSelection) {
    && (s.id == f.id || s.id == p.id)
    && (f.minCut != 0.0 ==> f.minCut <= YardsBySize(f, s, s.yardage))
    && YardsBySize(f, s, s.yardage) <= f.yards
  }

  lemma OwnFabricEntry(p: Product, s: FabricSelection)
    requires p.kind == FabricKind && p.fabric.Some?
    ensures var f := p.fabric.value;
      FabricUnit(p)(s) == if SellsCut(p, f, s) then Cost(Times(f.pricePerYard, OwnYards(f)(s))) else Refused
  {
    var f := p.fabric.value;
    TimesReordered(YardsBySize(f, s, s.yardage), f.pricePerYard, Pieces(s.quantity));
  }

  lemma {:induction false} SumTimes<S>(s: seq<S>, f: S -> real, price: real, weight: S -> real)
    requires forall x :: x in s ==> f(x) == Times(price, weight(x))
    ensures Sum(s, f) == Times(price, Sum(s, weight))
  {
    if s == [] {
      TimesSum(price, 0.0, 0.0);
    } else {
      var rest, x := s[..|s| - 1], s[|s| - 1];
      assert forall y :: y in rest ==> y in s;
      SumTimes(rest, f, price, weight);
      TimesSum(price, Sum(rest, weight), weight(x));
    }
  }

  /** Refused if and only if some cut is not sold; else the yard price times all the yards. */
  lemma OwnFabricCostMeaning(p: Product, s: seq<FabricSelection>)
    requires p.kind == FabricKind && p.fabric.Some?
    ensures var f := p.fabric.value;
      FabricCost(p, s) == if forall x :: x in s ==> SellsCut(p, f, x)
        then Cost(Round(Times(f.pricePerYard, Sum(s, OwnYards(f))))) else Refused
  {
    var f := p.fabric.value;
    CostsMeaning(s, FabricUnit(p));
    forall x | x in s
      ensures FabricUnit(p)(x) == if SellsCut(p, f, x) then Cost(Times(f.pricePerYard, OwnYards(f)(x))) else Refused
    {
      OwnFabricEntry(p, x);
    }
    if forall x :: x in s ==> SellsCut(p, f, x) {
      SumTimes(s, Amounts(FabricUnit(p)), f.pricePerYard, OwnYards(f));
    } else {
      var x :| x in s && !SellsCut(p, f, x);
      assert FabricUnit(p)(x).Refused?;
    }
  }

  // ---------- Accessories of a garment ----------

  function AccessoryId(s: AccessorySelection): Id { s.id }

  function AccessoryPieces(s: AccessorySelection): real { Pieces(s.quantity) }

  function AccessoryPrice(c: Clothing): Id -> real {
    (id: Id) =>
      match Find(c.accessories, IsAccessory(id))
      case None => 0.0
      case Some(k) => c.accessories[k].price
  }

  /** No two accessories share an id, nor two variants of one. */
  predicate UniqueAccessories(c: Clothing) {
    && (forall i, j :: 0 <= i < j < |c.accessories| ==> c.accessories[i].id != c.accessories[j].id)
    && (forall a :: a in c.accessories ==> UniqueVariants(a))
  }

  predicate UniqueVariants(a: Accessory) {
    forall i, j :: 0 <= i < j < |a.variants| ==> a.variants[i].id != a.variants[j].id
  }

  /** The accessory is there and, if it has variants and one is named, that one too, in the quantity named. */
  predicate HasAccessory(c: Clothing, s: AccessorySelection) {
    exists a :: a in c.accessories && a.id == s.id && HasVariant(a, s)
  }

  predicate HasVariant(a: Accessory, s: AccessorySelection) {
    || s.variant.None? || a.variants == []
    || exists v :: v in a.variants && v.id == s.variant.value && Default(s.quantity, 0.0) <= v.stock
  }

  lemma VariantStock(a: Accessory, s: AccessorySelection)
    requires UniqueVariants(a)
    ensures HasVariant(a, s) <==> StockState(a, s) == Untracked || StockState(a, s) == Enough
  {
    if s.variant.Some? && a.variants != [] {
      match Find(a.variants, IsAccessoryVariant(s.variant.value))
      case None =>
      case Some(k) => assert a.variants[k] in a.variants;
    }
  }

  lemma AccessoryEntry(p: Product, s: AccessorySelection)
    requires p.kind == ClothingKind && p.clothing.Some? && UniqueAccessories(p.clothing.value)
    ensures var c := p.clothing.value;
      AccessoryUnit(p)(s)
      == if HasAccessory(c, s) then Cost(Charge(AccessoryId, AccessoryPrice(c), AccessoryPieces)(s)) else Refused
  {
    var c := p.clothing.value;
    match Find(c.accessories, IsAccessory(s.id))
    case None =>
    case Some(k) =>
      assert c.accessories[k] in c.accessories;
      VariantStock(c.accessories[k], s);
      assert AccessoryPrice(c)(AccessoryId(s)) == c.accessories[k].price
        && AccessoryPieces(s) == Default(s.quantity, 1.0);
      assert forall a :: a in c.accessories && a.id == s.id ==> a == c.accessories[k];
  }

  /** Refused if and only if an accessory or its stock is missing; else each one's price times the pieces taken. */
  lemma AccessoryCostMeaning(p: Product, s: seq<AccessorySelection>, quantity: real, accessories: seq<Id>)
    requires p.kind == ClothingKind && p.clothing.Some? && UniqueAccessories(p.clothing.value)
    requires Lists(accessories, s, AccessoryId)
    ensures var c := p.clothing.value;
      AccessoryCost(p, s, quantity) == if forall x :: x in s ==> HasAccessory(c, x)
        then Cost(Round(Sum(accessories, Line(s, AccessoryId, AccessoryPrice(c), AccessoryPieces)))) else Refused
  {
    var c := p.clothing.value;
    var fine := (x: AccessorySelection) => HasAccessory(c, x);
    forall x | x in s
      ensures AccessoryUnit(p)(x)
        == if fine(x) then Cost(Charge(AccessoryId, AccessoryPrice(c), AccessoryPieces)(x)) else Refused
    {
      AccessoryEntry(p, x);
    }
    CostsByKey(s, AccessoryUnit(p), fine, AccessoryId, AccessoryPrice(c), AccessoryPieces, accessories);
  }

  // ---------- An accessory sold by itself ----------

  /** The accessory is meant, and the variant named, if it exists, has the quantity named. */
  predicate SellsPieces(a: Accessory, s: AccessorySelection) {
    s.id == a.id
    && (s.variant.Some? ==>
          forall v :: v in a.variants && v.id == s.variant.value ==> Default(s.quantity, 0.0) <= v.stock)
  }

  /** The selling price of the product, or the accessory's own where the product has none. */
  function PieceUnit(p: Product, a: Accessory): real {
    if EffectivePrice(p) > 0.0 then EffectivePrice(p) else a.price
  }

  lemma NotShort(a: Accessory, s: AccessorySelection)
    requires UniqueVariants(a) && s.id == a.id
    ensures SellsPieces(a, s) <==> StockState(a, s) != Short
  {
    if s.variant.Some? && a.variants != [] {
      match Find(a.variants, IsAccessoryVariant(s.variant.value))
      case None =>
        forall v | v in a.variants ensures v.id != s.variant.value {
          var i :| 0 <= i < |a.variants| && a.variants[i] == v;
          assert !IsAccessoryVariant(s.variant.value)(a.variants[i]);
        }
      case Some(k) =>
        assert IsAccessoryVariant(s.variant.value)(a.variants[k]) && a.variants[k] in a.variants;
    }
  }

  lemma OwnAccessoryEntry(p: Product, s: AccessorySelection)
    requires p.kind == AccessoryKind && p.accessory.Some? && UniqueVariants(p.accessory.value)
    ensures var a := p.accessory.value;
      AccessoryUnit(p)(s) == if SellsPieces(a, s) then Cost(Times(PieceUnit(p, a), AccessoryPieces(s))) else Refused
  {
    var a := p.accessory.value;
    if s.id == a.id { NotShort(a, s); }
    assert AccessoryPieces(s) == Default(s.quantity, 1.0);
  }

  /** Refused if and only if some pieces are not sold; else the unit price times all the pieces. */
  lemma OwnAccessoryCostMeaning(p: Product, s: seq<AccessorySelection>, quantity: real)
    requires p.kind == AccessoryKind && p.accessory.Some? && UniqueVariants(p.accessory.value) && s != []
    ensures var a := p.accessory.value;
      AccessoryCost(p, s, quantity) == if forall x :: x in s ==> SellsPieces(a, x)
        then Cost(Round(Times(PieceUnit(p, a), Sum(s, AccessoryPieces)))) else Refused
  {
    var a := p.accessory.value;
    CostsMeaning(s, AccessoryUnit(p));
    forall x | x in s
      ensures AccessoryUnit(p)(x)
        == if SellsPieces(a, x) then Cost(Times(PieceUnit(p, a), AccessoryPieces(x))) else Refused
    {
      OwnAccessoryEntry(p, x);
    }
    if forall x :: x in s ==> SellsPieces(a, x) {
      SumTimes(s, Amounts(AccessoryUnit(p)), PieceUnit(p, a), AccessoryPieces);
    } else {
      var x :| x in s && !SellsPieces(a, x);
      assert AccessoryUnit(p)(x).Refused?;
    }
  }

  // ---------- Add-ons ----------

  datatype AddonKey = AddonKey(addon: Id, variant: Id)

  function AddonOf(s: AddonSelection): AddonKey { AddonKey(s.id, s.variant) }

  function AddonPieces(s: AddonSelection): real { Pieces(s.quantity) }

  function AddonPrice(c: Clothing): AddonKey -> real {
    (key: AddonKey) =>
      match Find(c.addons, IsAddon(key.addon))
      case None => 0.0
      case Some(k) =>
        match Find(c.addons[k].variants, IsAddonVariant(key.variant))
        case None => 0.0
        case Some(j) => c.addons[k].variants[j].price
  }

  predicate UniqueAddons(c: Clothing) {
    forall i, j :: 0 <= i < j < |c.addons| ==> c.addons[i].id != c.addons[j].id
  }

  predicate OffersAddon(c: Clothing, s: AddonSelection) {
    exists a, v :: a in c.addons && v in a.variants && a.id == s.id && v.id == s.variant
  }

  lemma AddonEntry(c: Clothing, s: AddonSelection)
    requires UniqueAddons(c)
    ensures AddonUnit(c)(s)
      == if OffersAddon(c, s) then Cost(Charge(AddonOf, AddonPrice(c), AddonPieces)(s)) else Refused
  {
    match Find(c.addons, IsAddon(s.id))
    case None =>
    case Some(k) =>
      assert c.addons[k] in c.addons;
      assert forall a :: a in c.addons && a.id == s.id ==> a == c.addons[k];
      match Find(c.addons[k].variants, IsAddonVariant(s.variant))
      case None =>
      case Some(j) =>
        assert c.addons[k].variants[j] in c.addons[k].variants;
        assert AddonPrice(c)(AddonOf(s)) == c.addons[k].variants[j].price && AddonPieces(s) == Default(s.quantity, 1.0);
  }

  /** Where there are add-ons: refused if and only if one is named that is not offered; else price times pieces each. */
  lemma AddonCostMeaning(p: Product, s: seq<AddonSelection>, addons: seq<AddonKey>)
    requires p.clothing.Some? && UniqueAddons(p.clothing.value) && Lists(addons, s, AddonOf)
    ensures var c := p.clothing.value;
      AddonCost(p, s) ==
        if c.addons == [] then Cost(0.0)
        else if forall x :: x in s ==> OffersAddon(c, x)
        then Cost(Round(Sum(addons, Line(s, AddonOf, AddonPrice(c), AddonPieces)))) else Refused
  {
    var c := p.clothing.value;
    var fine := (x: AddonSelection) => OffersAddon(c, x);
    forall x | x in s
      ensures AddonUnit(c)(x)
        == if fine(x) then Cost(Charge(AddonOf, AddonPrice(c), AddonPieces)(x)) else Refused
    {
      AddonEntry(c, x);
    }
    CostsByKey(s, AddonUnit(c), fine, AddonOf, AddonPrice(c), AddonPieces, addons);
  }

  // ---------- Colours and sizes ----------

  predicate UniqueColours(colours: seq<ColourVariant>) {
    && (forall i, j :: 0 <= i < j < |colours| ==> colours[i].id != colours[j].id)
    && (forall i, j, k, l |
          0 <= i < |colours| && 0 <= k < |colours| && 0 <= j < |colours[i].variants|
              && 0 <= l < |colours[k].variants| ::
          colours[i].variants[j].id == colours[k].variants[l].id ==> i == k && j == l)
    && (forall c :: c in colours ==> UniqueSizeNames(c.variants))
  }

  predicate UniqueSizeNames(variants: seq<SizeVariant>) {
    forall i, j :: 0 <= i < j < |variants| ==> Lower(variants[i].size) != Lower(variants[j].size)
  }

  predicate IsPlace(colours: seq<ColourVariant>, at: Place) {
    at.colour < |colours| && at.size < |colours[at.colour].variants|
  }

  predicate NamesSize(colours: seq<ColourVariant>, id: Id) {
    exists c, v :: c in colours && v in c.variants && v.id == id
  }

  /** The selection names a size of the colour. */
  predicate NamesSizeOf(c: ColourVariant, size: string) {
    size != "" && exists v :: v in c.variants && Lower(v.size) == Lower(size)
  }

  /**
    What a selection means: the size with its id; or, if no size has that id, a size of the colour with its id,
    by name, or the colour's only size when no size of it is named.
   */
  predicate Means(colours: seq<ColourVariant>, s: ColourSelection, at: Place)
    requires IsPlace(colours, at)
  {
    var c, v := colours[at.colour], colours[at.colour].variants[at.size];
    if NamesSize(colours, s.id) then v.id == s.id
    else c.id == s.id && if NamesSizeOf(c, s.size) then Lower(v.size) == Lower(s.size) else |c.variants| == 1
  }

  lemma SizeByName(c: ColourVariant, size: string, k: nat)
    requires UniqueSizeNames(c.variants) && k < |c.variants|
    ensures SizeWithin(c, size) == Some(k)
      <==> if NamesSizeOf(c, size) then Lower(c.variants[k].size) == Lower(size) else |c.variants| == 1
  {
    if size != "" {
      match Find(c.variants, OfSize(size))
      case None => assert forall v :: v in c.variants ==> Lower(v.size) != Lower(size) by {
          forall i | 0 <= i < |c.variants| ensures Lower(c.variants[i].size) != Lower(size) {
            assert !OfSize(size)(c.variants[i]);
          }
        }
      case Some(j) => assert OfSize(size)(c.variants[j]) && c.variants[j] in c.variants;
    }
  }

  lemma SizeById(colours: seq<ColourVariant>, id: Id)
    ensures NamesSize(colours, id) <==> Find(colours, HasSize(id)).Some?
    ensures NamesSize(colours, id) ==>
      var c := Find(colours, HasSize(id)).value;
      Find(colours[c].variants, WithId(id)).Some?
          && colours[c].variants[Find(colours[c].variants, WithId(id)).value].id == id
  {
    match Find(colours, HasSize(id))
    case Some(c) =>
      assert HasSize(id)(colours[c]);
      var v := Find(colours[c].variants, WithId(id)).value;
      assert WithId(id)(colours[c].variants[v]);
      assert colours[c] in colours && colours[c].variants[v] in colours[c].variants;
    case None =>
      forall i, j | 0 <= i < |colours| && 0 <= j < |colours[i].variants| ensures colours[i].variants[j].id != id {
        assert !HasSize(id)(colours[i]);
        assert !WithId(id)(colours[i].variants[j]);
      }
  }

  /** Looking a selection up finds the one place it means. */
  lemma ResolveFindsMeant(colours: seq<ColourVariant>, s: ColourSelection, at: Place)
    requires UniqueColours(colours) && IsPlace(colours, at)
    ensures Resolve(colours, s) == Some(at) <==> Means(colours, s, at)
  {
    SizeById(colours, s.id);
    SizeByName(colours[at.colour], s.size, at.size);
    if !NamesSize(colours, s.id) {
      match Find(colours, IsColour(s.id))
      case None => assert !IsColour(s.id)(colours[at.colour]);
      case Some(c) =>
        assert IsColour(s.id)(colours[c]);
        if c == at.colour {
        } else {
          assert colours[c].id != colours[at.colour].id;
        }
    }
  }

  function PlaceOf(colours: seq<ColourVariant>): ColourSelection -> Place {
    (s: ColourSelection) =>
      match Resolve(colours, s)
      case None => Place(|colours|, 0)
      case Some(at) => at
  }

  function Surcharge(colours: seq<ColourVariant>): Place -> real {
    (at: Place) => if IsPlace(colours, at) then colours[at.colour].variants[at.size].price else 0.0
  }

  function ColourPieces(s: ColourSelection): real { Pieces(s.quantity) }

  /** The selection means a size, which has the quantity named. */
  predicate HasColour(colours: seq<ColourVariant>, s: ColourSelection) {
    Resolve(colours, s).Some? && Default(s.quantity, 0.0) <= Resolved(colours, s).stock
  }

  lemma ColourEntry(colours: seq<ColourVariant>, s: ColourSelection)
    ensures ColourUnit(colours)(s)
      == if HasColour(colours, s) then Cost(Charge(PlaceOf(colours), Surcharge(colours), ColourPieces)(s)) else Refused
  {
  }

  /** Refused if and only if no size is meant or too few are left; else each size's surcharge times the pieces taken. */
  lemma ColourCostMeaning(p: Product, s: seq<ColourSelection>, places: seq<Place>)
    requires Lists(places, s, PlaceOf(Colours(p)))
    ensures var colours := Colours(p);
      ColourCost(p, s) == if forall x :: x in s ==> HasColour(colours, x)
        then Cost(Round(Sum(places, Line(s, PlaceOf(colours), Surcharge(colours), ColourPieces)))) else Refused
  {
    var colours := Colours(p);
    var fine := (x: ColourSelection) => HasColour(colours, x);
    forall x | x in s
      ensures ColourUnit(colours)(x)
        == if fine(x) then Cost(Charge(PlaceOf(colours), Surcharge(colours), ColourPieces)(x)) else Refused
    {
      ColourEntry(colours, x);
    }
    CostsByKey(s, ColourUnit(colours), fine, PlaceOf(colours), Surcharge(colours), ColourPieces, places);
  }

  // ---------- The price of a whole item ----------

  /** A discount takes nothing negative. */
  predicate Fair(p: Product) {
    p.discount.Some? ==> 0.0 <= p.discount.value.value
  }

  lemma DiscountInRange(total: real, d: Discount)
    requires total >= 0.0 && 0.0 <= d.value
    ensures DiscountAmount(total, d) >= 0.0
  {
    TimesNonNegative(total, d.value);
  }

  lemma MarkedDownMonotone(p: Product, x: real, y: real)
    requires Fair(p) && 0.0 <= x <= y
    ensures 0.0 <= MarkedDown(p, x) <= MarkedDown(p, y) && MarkedDown(p, x) <= x
  {
    if Customized(p) && p.discount.Some? {
      var d := p.discount.value;
      DiscountInRange(x, d);
      if d.kind.Percentage? || d.kind.FlashPercentage? || d.kind.StoreWide? {
        LeftOver(x, y, d.value);
      }
    }
  }

  /** More than all of it being taken leaves nothing. */
  lemma LeftOver(x: real, y: real, value: real)
    requires 0.0 <= x <= y
    ensures Max0(x - Times(x, value) / 100.0) <= Max0(y - Times(y, value) / 100.0)
  {
    if value <= 100.0 {
      TimesMonotone(x, y, 100.0 - value);
    } else {
      TimesMonotone(100.0, value, x);
    }
  }

  lemma TimesMore(unit: real, quantity: real, more: real)
    requires unit >= 0.0 && quantity <= more
    ensures Times(unit, quantity) <= Times(unit, more)
  {
    TimesMonotone(quantity, more, unit);
  }

  lemma ChargedBaseRange(p: Product, quantity: real, more: real)
    requires p.basePrice >= 0.0 && 0.0 <= quantity <= more
    ensures 0.0 <= ChargedBase(p, quantity) <= ChargedBase(p, more)
    ensures ChargedBase(p, quantity) <= Times(p.basePrice, quantity)
  {
    var unit := if Customized(p) then p.basePrice else EffectivePrice(p);
    TimesNonNegative(unit, quantity);
    TimesMonotone(unit, p.basePrice, quantity);
    TimesMore(unit, quantity, more);
  }

  lemma PriceInRange(p: Product, quantity: real, more: real, extras: real)
    requires p.basePrice >= 0.0 && 0.0 <= quantity <= more && extras >= 0.0 && Fair(p)
    ensures 0.0 <= Round(ClothingPrice(p, quantity, extras)) <= Round(ClothingPrice(p, more, extras))
    ensures Round(ClothingPrice(p, quantity, extras)) <= Round(Times(p.basePrice, quantity) + extras)
  {
    ChargedBaseRange(p, quantity, more);
    MarkedDownMonotone(p, ChargedBase(p, quantity) + extras, ChargedBase(p, more) + extras);
    CentsFromInt(0);
    RoundMonotone(0.0, ClothingPrice(p, quantity, extras));
    RoundMonotone(ClothingPrice(p, quantity, extras), ClothingPrice(p, more, extras));
    RoundMonotone(ClothingPrice(p, quantity, extras), Times(p.basePrice, quantity) + extras);
  }

  /** What the base would cost undiscounted, with the components. */
  function Undiscounted(p: Product, quantity: real, c: Parts): real {
    Round(Times(p.basePrice, quantity) + Extras(c))
  }

  lemma PriceBetween(p: Product, quantity: real, c: Parts)
    requires p.basePrice >= 0.0 && 0.0 <= quantity && Extras(c) >= 0.0 && Fair(p)
    ensures 0.0 <= Round(ClothingPrice(p, quantity, Extras(c))) <= Undiscounted(p, quantity, c)
  {
    PriceInRange(p, quantity, quantity, Extras(c));
  }

  lemma PartsNonNegative(p: Product, item: Item, c: Parts)
    requires item.product == Some(p) && p.kind == ClothingKind && NonNegative(item)
    requires PartsOf(p, item.selections) == Some(c)
    ensures Extras(c) >= 0.0
  {
    ExtrasNonNegative(p, item);
    assert PartsOf(p, item.selections).value == c;
  }

  /** A garment costs between nothing and its undiscounted base with its components. */
  lemma GarmentPriceInRange(p: Product, item: Item, c: Parts)
    requires item.product == Some(p) && p.kind == ClothingKind && NonNegative(item) && Fair(p)
    requires PartsOf(p, item.selections) == Some(c)
    ensures ItemTotal(item).Cost? && 0.0 <= ItemTotal(item).amount <= Undiscounted(p, Default(item.quantity, 1.0), c)
  {
    PartsNonNegative(p, item, c);
    PricedBy(p, item, c);
    PriceBetween(p, Default(item.quantity, 1.0), c);
  }

  /** Everything selected for a garment can be sold: it is in the catalogue, and in stock where stock is kept. */
  predicate Sellable(p: Product, s: Selections) {
    && (forall x :: x in s.colours ==> HasColour(Colours(p), x))
    && match p.clothing
       case None => s.fabrics == [] && s.accessories == []
       case Some(c) =>
         && (forall x :: x in s.styles ==> OffersStyle(c, x.id))
         && (forall x :: x in s.fabrics ==> HasYards(c, x))
         && (forall x :: x in s.accessories ==> HasAccessory(c, x))
         && (c.addons != [] ==> forall x :: x in s.addons ==> OffersAddon(c, x))
  }

  lemma CostsFine<S>(s: seq<S>, cost: S -> Price, fine: S -> bool)
    requires forall x :: x in s ==> (cost(x).Cost? <==> fine(x))
    ensures Costs(s, cost).Cost? <==> forall x :: x in s ==> fine(x)
  {
    CostsMeaning(s, cost);
  }

  /** A garment is priced if and only if all that is selected for it can be sold. */
  lemma GarmentPricedIff(p: Product, item: Item)
    requires item.product == Some(p) && p.kind == ClothingKind
    requires p.clothing.Some? ==> UniqueAccessories(p.clothing.value) && UniqueAddons(p.clothing.value)
    ensures ItemTotal(item).Cost? <==> Sellable(p, item.selections)
  {
    var s := item.selections;
    ColoursFine(Colours(p), s.colours);
    match p.clothing
    case None =>
      CostsFine(s.fabrics, FabricUnit(p), x => false);
      CostsFine(s.accessories, AccessoryUnit(p), x => false);
      if s.fabrics != [] { assert s.fabrics[0] in s.fabrics; }
      if s.accessories != [] { assert s.accessories[0] in s.accessories; }
    case Some(c) => CatalogueFine(p, s);
  }

  lemma ColoursFine(colours: seq<ColourVariant>, s: seq<ColourSelection>)
    ensures Costs(s, ColourUnit(colours)).Cost? <==> forall x :: x in s ==> HasColour(colours, x)
  {
    forall x | x in s ensures ColourUnit(colours)(x).Cost? <==> HasColour(colours, x) { ColourEntry(colours, x); }
    CostsFine(s, ColourUnit(colours), x => HasColour(colours, x));
  }

  lemma CatalogueFine(p: Product, s: Selections)
    requires p.kind == ClothingKind && p.clothing.Some?
    requires UniqueAccessories(p.clothing.value) && UniqueAddons(p.clothing.value)
    ensures var c := p.clothing.value;
      && (StyleCost(p, s.styles).Cost? <==> forall x :: x in s.styles ==> OffersStyle(c, x.id))
      && (FabricCost(p, s.fabrics).Cost? <==> forall x :: x in s.fabrics ==> HasYards(c, x))
      && (AccessoryCost(p, s.accessories, 1.0).Cost? <==> forall x :: x in s.accessories ==> HasAccessory(c, x))
      && (AddonCost(p, s.addons).Cost? <==> (c.addons != [] ==> forall x :: x in s.addons ==> OffersAddon(c, x)))
  {
    var c := p.clothing.value;
    forall x | x in s.styles ensures StyleUnit(c)(x).Cost? <==> OffersStyle(c, x.id) { StyleEntry(c, x); }
    CostsFine(s.styles, StyleUnit(c), (x: StyleSelection) => OffersStyle(c, x.id));
    forall x | x in s.fabrics ensures FabricUnit(p)(x).Cost? <==> HasYards(c, x) { FabricEntry(p, x); }
    CostsFine(s.fabrics, FabricUnit(p), x => HasYards(c, x));
    forall x | x in s.accessories ensures AccessoryUnit(p)(x).Cost? <==> HasAccessory(c, x) { AccessoryEntry(p, x); }
    CostsFine(s.accessories, AccessoryUnit(p), x => HasAccessory(c, x));
    forall x | x in s.addons ensures AddonUnit(c)(x).Cost? <==> OffersAddon(c, x) { AddonEntry(c, x); }
    CostsFine(s.addons, AddonUnit(c), x => OffersAddon(c, x));
  }

  function Several(item: Item, quantity: real): Item {
    item.(quantity := Some(quantity))
  }

  lemma GarmentMonotone(p: Product, item: Item, more: real)
    requires item.product == Some(p) && p.kind == ClothingKind && NonNegative(item) && Fair(p)
    requires Default(item.quantity, 1.0) <= more && PartsOf(p, item.selections).Some?
    ensures ItemTotal(item).Cost? && ItemTotal(Several(item, more)).Cost?
    ensures ItemTotal(item).amount <= ItemTotal(Several(item, more)).amount
  {
    var c := PartsOf(p, item.selections).value;
    PartsNonNegative(p, item, c);
    PricedBy(p, item, c);
    PricedBy(p, Several(item, more), c);
    PriceInRange(p, Default(item.quantity, 1.0), more, Extras(c));
  }

  lemma FlatMonotone(p: Product, quantity: real, more: real)
    requires p.basePrice >= 0.0 && 0.0 <= quantity <= more
    ensures Round(Times(EffectivePrice(p), quantity)) <= Round(Times(EffectivePrice(p), more))
  {
    TimesMore(EffectivePrice(p), quantity, more);
    RoundMonotone(Times(EffectivePrice(p), quantity), Times(EffectivePrice(p), more));
  }

  /** More of an item, of whatever kind, can be priced exactly when it can, and never costs less. */
  lemma MoreNeverCostsLess(item: Item, more: real)
    requires NonNegative(item) && (item.product.Some? ==> Fair(item.product.value))
    requires Default(item.quantity, 1.0) <= more
    ensures ItemTotal(Several(item, more)).Cost? <==> ItemTotal(item).Cost?
    ensures ItemTotal(item).Cost? ==> ItemTotal(item).amount <= ItemTotal(Several(item, more)).amount
  {
    if item.product.Some? {
      var p := item.product.value;
      match p.kind
      case ClothingKind => if PartsOf(p, item.selections).Some? { GarmentMonotone(p, item, more); }
      case FabricKind => FlatMonotone(p, Default(item.quantity, 1.0), more);
      case AccessoryKind => FlatMonotone(p, Default(item.quantity, 1.0), more);
      case OtherKind =>
    }
  }

  // ---------- What a price comes to ----------

  /** The selling price: the discounted one if it is set and lower, or else the base price. */
  function Selling(p: Product): real {
    if p.discountedPrice > 0.0 && p.discountedPrice < p.basePrice then p.discountedPrice else p.basePrice
  }

  /** What a discount leaves of the price of a whole piece. */
  function Left(before: real, discount: Option<Discount>): real {
    match discount
    case None => before
    case Some(d) =>
      match d.kind
      case Percentage => Max0(Times(before, 100.0 - d.value) / 100.0)
      case FlashPercentage => Max0(Times(before, 100.0 - d.value) / 100.0)
      case StoreWide => Max0(Times(before, 100.0 - d.value) / 100.0)
      case Fixed => Max0(before - d.value)
      case FlashFixed => Max0(before - d.value)
      case CategorySpecific => Max0(before)
  }

  lemma MarkedDownIsLeft(p: Product, total: real)
    requires p.clothing.Some? && p.clothing.value.customize
    ensures MarkedDown(p, total) == Left(total, p.discount)
  {
    if p.discount.Some? {
      PercentLeft(total, p.discount.value.value);
      AmountLeft(total, p.discount.value.value);
    }
  }

  lemma PercentLeft(total: real, value: real)
    ensures total - Times(total, value) / 100.0 == Times(total, 100.0 - value) / 100.0
  {
  }

  lemma AmountLeft(total: real, value: real)
    ensures Max0(total - Min(value, total)) == Max0(total - value)
  {
  }

  /**
    A custom piece comes to its base price times the quantity with all its components, less its discount;
    ready-to-wear to its selling price times the quantity with all its components.
   */
  function ComesTo(p: Product, quantity: real, c: Parts): real {
    var components := c.styles + c.fabrics + c.accessories + c.colours + c.addons;
    if p.clothing.Some? && p.clothing.value.customize then Left(Times(p.basePrice, quantity) + components, p.discount)
    else Times(Selling(p), quantity) + components
  }

  lemma ClothingComesTo(p: Product, quantity: real, c: Parts)
    ensures ClothingPrice(p, quantity, Extras(c)) == ComesTo(p, quantity, c)
  {
    if p.clothing.Some? && p.clothing.value.customize {
      MarkedDownIsLeft(p, ChargedBase(p, quantity) + Extras(c));
    }
  }

  lemma RoundedAlike(x: Price, a: real, b: real)
    requires x == Cost(Round(a)) && a == b
    ensures x == Cost(Round(b))
  {
  }

  /** A garment costs what it comes to, rounded. */
  lemma GarmentPrice(p: Product, item: Item, c: Parts)
    requires item.product == Some(p) && p.kind == ClothingKind && PartsOf(p, item.selections) == Some(c)
    ensures ItemTotal(item) == Cost(Round(ComesTo(p, Default(item.quantity, 1.0), c)))
  {
    var quantity := Default(item.quantity, 1.0);
    PricedBy(p, item, c);
    ClothingComesTo(p, quantity, c);
    RoundedAlike(ItemTotal(item), ClothingPrice(p, quantity, Extras(c)), ComesTo(p, quantity, c));
  }

  /** A fabric or accessory of which nothing is selected costs its selling price times the quantity. */
  lemma FlatPrice(p: Product, item: Item)
    requires item.product == Some(p)
    requires (p.kind == FabricKind && item.selections.fabrics == [])
      || (p.kind == AccessoryKind && item.selections.accessories == [])
    ensures ItemTotal(item) == Cost(Round(Times(Selling(p), Default(item.quantity, 1.0))))
  {
  }

  /**
    Each line of a garment's breakdown shows the cost it is named for; fabric of the customer's own is shown at its
    price per yard times the yards, and not charged with the garment.
   */
  lemma LinesShowCosts(p: Product, item: Item)
    requires item.product == Some(p) && p.kind == ClothingKind && BreakdownOf(item).Some?
    ensures var b, s := BreakdownOf(item).value, item.selections;
      && b.base == Round(Times(p.basePrice, Default(item.quantity, 1.0)))
      && StyleCost(p, s.styles).Cost? && b.styles == Round(StyleCost(p, s.styles).amount)
      && FabricCost(p, s.fabrics) == Cost(b.fabrics) && ColourCost(p, s.colours) == Cost(b.colours)
      && AccessoryCost(p, s.accessories, 1.0) == Cost(b.accessories) && AddonCost(p, s.addons) == Cost(b.addons)
      && b.externalFabric == (match item.applied
           case Some(f) => if f.yards > 0.0 && f.pricePerYard > 0.0 then Round(Times(f.pricePerYard, f.yards)) else 0.0
           case None => 0.0)
  {
    CostsAreCents(p, item.selections);
    if item.applied.Some? { RoundIsCents(Times(item.applied.value.pricePerYard, item.applied.value.yards)); }
    CentsFromInt(0);
  }

  // ---------- The lines of a breakdown ----------

  function Lines(b: Breakdown): real {
    b.base + b.styles + b.fabrics + b.colours + b.accessories + b.addons
  }

  predicate MarkedAccessory(p: Product) {
    p.kind == AccessoryKind && 0.0 < p.discountedPrice < p.basePrice
  }

  lemma CostsAreCents(p: Product, s: Selections)
    requires PartsOf(p, s).Some?
    ensures var c := PartsOf(p, s).value;
      IsCents(c.fabrics) && IsCents(c.colours) && IsCents(c.accessories) && IsCents(c.addons)
  {
    RoundIsCents(AmountOf(Costs(s.fabrics, FabricUnit(p))));
    RoundIsCents(AmountOf(Costs(s.colours, ColourUnit(Colours(p)))));
    RoundIsCents(AmountOf(Costs(s.accessories, AccessoryUnit(p))));
    RoundIsCents(Times(EffectivePrice(p), 1.0));
    if p.clothing.Some? { RoundIsCents(AmountOf(Costs(s.addons, AddonUnit(p.clothing.value)))); }
    CentsFromInt(0);
  }

  /** Rounding a sum in which only two terms are not whole hundredths is off by at most one. */
  lemma RoundTwo(x: real, y: real, cents: real)
    requires IsCents(cents)
    ensures -0.01 <= Round(x + y + cents) - (Round(x) + Round(y) + cents) <= 0.01
  {
    RoundStep(x);
    RoundStep(y);
    RoundStep(x + y + cents);
    var i, j, k, n := (100.0 * x + 0.5).Floor, (100.0 * y + 0.5).Floor,
                      (100.0 * (x + y + cents) + 0.5).Floor, (100.0 * cents + 0.5).Floor;
    assert cents == n as real / 100.0;
    assert -1.5 < (k - i - j - n) as real < 1.5;
  }

  lemma GarmentLines(p: Product, item: Item, c: Parts)
    requires IsCents(c.fabrics) && IsCents(c.colours) && IsCents(c.accessories) && IsCents(c.addons)
    ensures var b := ClothingBreakdown(p, item, c); -0.01 <= b.before - Lines(b) <= 0.01
  {
    var base := Times(p.basePrice, Default(item.quantity, 1.0));
    var cents := c.fabrics + c.accessories + c.colours + c.addons;
    CentsAdd(c.fabrics, c.accessories);
    CentsAdd(c.fabrics + c.accessories, c.colours);
    CentsAdd(c.fabrics + c.accessories + c.colours, c.addons);
    RoundTwo(base, c.styles, cents);
    assert base + Extras(c) == base + c.styles + cents;
  }

  lemma GarmentDiscount(p: Product, item: Item, c: Parts)
    requires p.basePrice >= 0.0 && PositiveQuantity(item.quantity) && Extras(c) >= 0.0 && Fair(p)
    ensures var b := ClothingBreakdown(p, item, c);
      b.discount >= 0.0 && b.final <= b.before && -0.01 <= b.before - b.discount - b.final <= 0.01
  {
    var quantity := Default(item.quantity, 1.0);
    var before := Times(p.basePrice, quantity) + Extras(c);
    TimesNonNegative(p.basePrice, quantity);
    if Customized(p) && p.discount.Some? { DiscountInRange(before, p.discount.value); }
    ShownDiscountFits(p, item, c);
    RoundMonotone(0.0, ShownDiscount(p, quantity, before));
    RoundMonotone(Max0(before - ShownDiscount(p, quantity, before)), before);
  }

  /**
    An accessory on markdown of which pieces were selected that cost more, at the lower price, than the item's
    quantity does at the full one.
   */
  predicate OutgrowsItem(item: Item)
    requires item.product.Some?
  {
    var p, s := item.product.value, item.selections.accessories;
    && MarkedAccessory(p) && p.accessory.Some? && s != []
    && Round(Times(p.basePrice, Default(item.quantity, 1.0))) + 0.01
       < Round(Times(p.discountedPrice, Sum(s, AccessoryPieces)))
  }

  /**
    The shown lines add up to the price before discount, and that less the discount to the final price, each to
    within a hundredth; the second fails if and only if the pieces selected outgrow the item's quantity.
   */
  lemma BreakdownFitsIff(item: Item)
    requires NonNegative(item) && BreakdownOf(item).Some? && Fair(item.product.value)
    ensures var b := BreakdownOf(item).value;
      && -0.01 <= b.before - Lines(b) <= 0.01 && b.discount >= 0.0
      && (-0.01 <= b.before - b.discount - b.final <= 0.01 <==> !OutgrowsItem(item))
  {
    var p := item.product.value;
    if p.kind == ClothingKind {
      var c := PartsOf(p, item.selections).value;
      ExtrasNonNegative(p, item);
      CostsAreCents(p, item.selections);
      GarmentLines(p, item, c);
      GarmentDiscount(p, item, c);
    } else {
      FlatBreakdownFits(p, item);
      if MarkedAccessory(p) { MarkedTotal(p, item); }
    }
  }

  lemma PricedPieces(p: Product, s: seq<AccessorySelection>, quantity: real)
    requires MarkedAccessory(p) && p.accessory.Some? && s != [] && AccessoryCost(p, s, quantity).Cost?
    ensures AccessoryCost(p, s, quantity) == Cost(Round(Times(p.discountedPrice, Sum(s, AccessoryPieces))))
  {
    CostsMeaning(s, AccessoryUnit(p));
    forall x | x in s ensures Amounts(AccessoryUnit(p))(x) == Times(p.discountedPrice, AccessoryPieces(x)) {
      assert AccessoryUnit(p)(x).Cost?;
    }
    SumTimes(s, Amounts(AccessoryUnit(p)), p.discountedPrice, AccessoryPieces);
  }

  lemma {:induction false} NothingCharged<S>(s: seq<S>, cost: S -> Price)
    requires forall x :: cost(x) == Cost(0.0)
    ensures Costs(s, cost) == Cost(0.0)
  {
    if s != [] { NothingCharged(s[..|s| - 1], cost); }
  }

  /** The final price of an accessory on markdown against its undiscounted price. */
  lemma MarkedTotal(p: Product, item: Item)
    requires item.product == Some(p) && MarkedAccessory(p) && NonNegative(item) && ItemTotal(item).Cost?
    ensures Round(Times(p.basePrice, Default(item.quantity, 1.0))) + 0.01 < ItemTotal(item).amount
      <==> OutgrowsItem(item)
  {
    var s, quantity := item.selections.accessories, Default(item.quantity, 1.0);
    TimesNonNegative(p.basePrice, quantity);
    CentsFromInt(0);
    RoundMonotone(0.0, Times(p.basePrice, quantity));
    if s == [] {
      TimesMonotone(EffectivePrice(p), p.basePrice, quantity);
      RoundMonotone(Times(EffectivePrice(p), quantity), Times(p.basePrice, quantity));
    } else if p.accessory.Some? {
      PricedPieces(p, s, quantity);
    } else {
      NothingCharged(s, AccessoryUnit(p));
    }
  }

  lemma FlatBreakdownFits(p: Product, item: Item)
    requires item.product == Some(p) && p.kind != ClothingKind && BreakdownOf(item).Some?
    ensures var b, total := BreakdownOf(item).value, ItemTotal(item).amount;
      && b.before == Lines(b) && b.discount >= 0.0 && b.final == total
      && (MarkedAccessory(p) ==> b.before == Round(Times(p.basePrice, Default(item.quantity, 1.0))))
      && (!MarkedAccessory(p) ==> b.before == total)
      && b.before - b.discount - b.final == if b.before < total then b.before - total else 0.0
  {
    var total := ItemTotal(item).amount;
    TotalIsCents(item);
    if MarkedAccessory(p) {
      RoundIsCents(Times(p.basePrice, Default(item.quantity, 1.0)));
      CentsSubtract(Round(Times(p.basePrice, Default(item.quantity, 1.0))), total);
    } else {
      CentsSubtract(total, total);
    }
  }

  lemma CentsSubtract(x: real, y: real)
    requires IsCents(x) && IsCents(y)
    ensures IsCents(x - y)
  {
    var j, k := (100.0 * x + 0.5).Floor, (100.0 * y + 0.5).Floor;
    assert x - y == (j - k) as real / 100.0;
    CentsFromInt(j - k);
  }

  /** One accessory in the cart, two selected: shown as 100 before a discount of nothing, and 180 to pay. */
  lemma AccessoryLinesDoNotFit()
    ensures var accessory := Accessory(2, 0.0, []);
      var p := Product(1, AccessoryKind, 100.0, 90.0, None, None, None, Some(accessory));
      var s := Selections([], [], [], [AccessorySelection(2, None, Some(2.0))], []);
      var b := BreakdownOf(Item(Some(p), Some(1.0), s, None));
      b.Some? && b.value.before == 100.0 && b.value.discount == 0.0 && b.value.final == 180.0
  {
    var accessory := Accessory(2, 0.0, []);
    var p := Product(1, AccessoryKind, 100.0, 90.0, None, None, None, Some(accessory));
    var x := AccessorySelection(2, None, Some(2.0));
    var item := Item(Some(p), Some(1.0), Selections([], [], [], [x], []), None);
    assert AccessoryUnit(p)(x) == Cost(180.0);
    assert Costs([x], AccessoryUnit(p)) == Cost(180.0) by { assert [x][..0] == []; }
    CentsFromInt(18000);
    CentsFromInt(10000);
    CentsFromInt(-8000);
    assert ItemTotal(item) == Cost(180.0);
  }
}
