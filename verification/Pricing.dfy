/** What an item costs: selections, discounts, and the two computations of one price. */
module Pricing {
  import opened Prelude

  // Numbers that may be unset and then count as zero, and sizes that may be unset, are 0.0 and "".
  datatype SizeVariant = SizeVariant(id: Id, size: string, stock: real, price: real, yards: real)

  datatype ColourVariant = ColourVariant(id: Id, name: string, variants: seq<SizeVariant>)

  datatype Style = Style(id: Id, price: real)

  datatype Fabric = Fabric(id: Id, pricePerYard: real, minCut: real, yards: real, variants: seq<SizeVariant>)

  datatype AccessoryVariant = AccessoryVariant(id: Id, stock: real)

  datatype Accessory = Accessory(id: Id, price: real, variants: seq<AccessoryVariant>)

  datatype AddonVariant = AddonVariant(id: Id, price: real)

  datatype Addon = Addon(id: Id, variants: seq<AddonVariant>)

  datatype SizeYards = SizeYards(size: string, yards: real)

  datatype Clothing = Clothing(
    customize: bool,
    styles: seq<Style>,
    colours: seq<ColourVariant>,
    fabrics: seq<Fabric>,
    yardsPerSize: seq<SizeYards>,
    accessories: seq<Accessory>,
    addons: seq<Addon>)

  datatype DiscountType = Percentage | FlashPercentage | StoreWide | Fixed | FlashFixed | CategorySpecific

  datatype Discount = Discount(kind: DiscountType, value: real)

  datatype Kind = ClothingKind | FabricKind | AccessoryKind | OtherKind

  datatype Product = Product(
    id: Id,
    kind: Kind,
    basePrice: real,
    discountedPrice: real,
    discount: Option<Discount>,
    clothing: Option<Clothing>,
    fabric: Option<Fabric>,
    accessory: Option<Accessory>)

  datatype ColourSelection = ColourSelection(
    id: Id, size: string, name: string, quantity: Option<real>, price: real, total: real)

  datatype StyleSelection = StyleSelection(id: Id, quantity: Option<real>)

  datatype FabricSelection = FabricSelection(id: Id, yardage: real, size: string, quantity: Option<real>)

  datatype AccessorySelection = AccessorySelection(id: Id, variant: Option<Id>, quantity: Option<real>)

  datatype AddonSelection = AddonSelection(id: Id, variant: Id, quantity: Option<real>)

  datatype Selections = Selections(
    colours: seq<ColourSelection>,
    styles: seq<StyleSelection>,
    fabrics: seq<FabricSelection>,
    accessories: seq<AccessorySelection>,
    addons: seq<AddonSelection>)

  /** The customer's own fabric; the price is 0.0 when its product no longer exists. */
  datatype AppliedFabric = AppliedFabric(pricePerYard: real, yards: real)

  /** `product` is what looking the product up gives. */
  datatype Item = Item(
    product: Option<Product>, quantity: Option<real>, selections: Selections, applied: Option<AppliedFabric>)

  // ---------- The cost of a list of selections ----------

  /** An amount, or the error that pricing ends with. */
  datatype Price = Refused | Cost(amount: real)

  function Default(x: Option<real>, otherwise: real): real {
    if x.Some? then x.value else otherwise
  }

  function Times(x: real, y: real): real {
    x * y
  }

  function AmountOf(x: Price): real {
    if x.Cost? then x.amount else 0.0
  }

  function Rounded(x: Price): Price {
    if x.Cost? then Cost(Round(x.amount)) else Refused
  }

  /** The total cost of a list, refused as soon as one entry is. */
  function Costs<S>(s: seq<S>, cost: S -> Price): Price {
    if s == [] then Cost(0.0)
    else
      var prior, last := Costs(s[..|s| - 1], cost), cost(s[|s| - 1]);
      if prior.Cost? && last.Cost? then Cost(prior.amount + last.amount) else Refused
  }

  lemma CostsNext<S>(s: seq<S>, i: nat, cost: S -> Price)
    requires i < |s|
    ensures s[..i + 1][..i] == s[..i] && s[..i + 1][i] == s[i]
  {
  }

  /** What one entry adds to the cost of a list. */
  function Amounts<S>(cost: S -> Price): S -> real {
    (x: S) => AmountOf(cost(x))
  }

  /** A list is refused exactly when some entry is, and otherwise costs the sum over its entries. */
  lemma {:induction false} CostsMeaning<S>(s: seq<S>, cost: S -> Price)
    ensures Costs(s, cost).Cost? <==> forall x :: x in s ==> cost(x).Cost?
    ensures Costs(s, cost).Cost? ==> Costs(s, cost).amount == Sum(s, Amounts(cost))
  {
    if s != [] {
      CostsMeaning(s[..|s| - 1], cost);
      assert s == s[..|s| - 1] + [s[|s| - 1]];
    }
  }

  lemma {:induction false} CostsNonNegative<S>(s: seq<S>, cost: S -> Price)
    requires forall x :: x in s && cost(x).Cost? ==> cost(x).amount >= 0.0
    ensures Costs(s, cost).Cost? ==> Costs(s, cost).amount >= 0.0
  {
    if s != [] {
      assert forall x :: x in s[..|s| - 1] ==> x in s;
      CostsNonNegative(s[..|s| - 1], cost);
    }
  }

  /** The loop every component cost runs over its selections. */
  method Accumulate<S>(selections: seq<S>, cost: S -> Price) returns (total: Price)
    ensures total == Costs(selections, cost)
  {
    var sum := 0.0;
    for i := 0 to |selections|
      invariant Costs(selections[..i], cost) == Cost(sum)
    {
      CostsNext(selections, i, cost);
      match cost(selections[i]) {
        case Refused =>
          CostsMeaning(selections, cost);
          return Refused;
        case Cost(c) => sum := sum + c;
      }
    }
    assert selections[..|selections|] == selections;
    return Cost(sum);
  }

  // ---------- What one selection costs ----------

  /** Lower case, for the letters A to Z. */
  function Lower(s: string): string {
    seq(|s|, i requires 0 <= i < |s| => if 'A' <= s[i] <= 'Z' then (s[i] as int + 32) as char else s[i])
  }

  function IsStyle(id: Id): Style -> bool {
    (t: Style) => t.id == id
  }

  function IsFabric(id: Id): Fabric -> bool {
    (f: Fabric) => f.id == id
  }

  function IsAccessory(id: Id): Accessory -> bool {
    (a: Accessory) => a.id == id
  }

  function IsAccessoryVariant(id: Id): AccessoryVariant -> bool {
    (v: AccessoryVariant) => v.id == id
  }

  function IsAddon(id: Id): Addon -> bool {
    (a: Addon) => a.id == id
  }

  function IsAddonVariant(id: Id): AddonVariant -> bool {
    (v: AddonVariant) => v.id == id
  }

  function OfSize(size: string): SizeVariant -> bool {
    (v: SizeVariant) => Lower(v.size) == Lower(size)
  }

  function EffectivePrice(p: Product): real {
    if 0.0 < p.discountedPrice < p.basePrice then p.discountedPrice else p.basePrice
  }

  function StyleUnit(c: Clothing): StyleSelection -> Price {
    (s: StyleSelection) =>
      match Find(c.styles, IsStyle(s.id))
      case None => Refused
      case Some(k) => Cost(Times(c.styles[k].price, Default(s.quantity, 1.0)))
  }

  /** The yards a fabric's own size chart gives, when the selection names none. */
  function YardsBySize(f: Fabric, s: FabricSelection, yards: real): real {
    if yards != 0.0 || s.size == "" then yards
    else
      match Find(f.variants, OfSize(s.size))
      case None => yards
      case Some(k) => if f.variants[k].yards != 0.0 then f.variants[k].yards else yards
  }

  function GarmentYards(c: Clothing, s: FabricSelection): real {
    if s.yardage != 0.0 || s.size == "" then s.yardage
    else
      match Find(c.yardsPerSize, (y: SizeYards) => Lower(y.size) == Lower(s.size))
      case None => s.yardage
      case Some(k) => if c.yardsPerSize[k].yards != 0.0 then c.yardsPerSize[k].yards else s.yardage
  }

  function FabricPrice(f: Fabric, yards: real, s: FabricSelection): Price {
    if f.yards < yards then Refused else Cost(Times(Times(yards, f.pricePerYard), Default(s.quantity, 1.0)))
  }

  function FabricUnit(p: Product): FabricSelection -> Price {
    (s: FabricSelection) =>
      match p.kind
      case FabricKind =>
        if p.fabric.None? then Cost(0.0)
        else
          var f := p.fabric.value;
          var yards := YardsBySize(f, s, s.yardage);
          if s.id != f.id && s.id != p.id then Refused
          else if f.minCut != 0.0 && yards < f.minCut then Refused
          else FabricPrice(f, yards, s)
      case ClothingKind =>
        if p.clothing.None? then Refused
        else
          var c := p.clothing.value;
          (match Find(c.fabrics, IsFabric(s.id))
           case None => Refused
           case Some(k) => FabricPrice(c.fabrics[k], CutYards(c, c.fabrics[k], s), s))
      case _ => Cost(0.0)
  }

  /** The yards a garment is cut from, raised to the least cut. */
  function CutYards(c: Clothing, f: Fabric, s: FabricSelection): real {
    var yards := YardsBySize(f, s, GarmentYards(c, s));
    if f.minCut != 0.0 && 0.0 < yards < f.minCut then f.minCut else yards
  }

  function AccessoryUnit(p: Product): AccessorySelection -> Price {
    (s: AccessorySelection) =>
      match p.kind
      case AccessoryKind =>
        if p.accessory.None? then Cost(0.0)
        else
          var a := p.accessory.value;
          var unit := if EffectivePrice(p) > 0.0 then EffectivePrice(p) else a.price;
          if s.id != a.id then Refused
          else if StockState(a, s) == Short then Refused
          else Cost(Times(unit, Default(s.quantity, 1.0)))
      case ClothingKind =>
        if p.clothing.None? then Refused
        else
          var accessories := p.clothing.value.accessories;
          (match Find(accessories, IsAccessory(s.id))
           case None => Refused
           case Some(k) =>
             if StockState(accessories[k], s) == Short || StockState(accessories[k], s) == Unknown then Refused
             else Cost(Times(accessories[k].price, Default(s.quantity, 1.0))))
      case _ => Cost(0.0)
  }

  datatype StockCheck = Untracked | Enough | Short | Unknown

  /** What the named variant of an accessory says about stock. */
  function StockState(a: Accessory, s: AccessorySelection): StockCheck {
    if s.variant.None? || a.variants == [] then Untracked
    else
      match Find(a.variants, IsAccessoryVariant(s.variant.value))
      case None => Unknown
      case Some(k) => if a.variants[k].stock < Default(s.quantity, 0.0) then Short else Enough
  }

  function AddonUnit(c: Clothing): AddonSelection -> Price {
    (s: AddonSelection) =>
      match Find(c.addons, IsAddon(s.id))
      case None => Refused
      case Some(k) =>
        match Find(c.addons[k].variants, IsAddonVariant(s.variant))
        case None => Refused
        case Some(j) => Cost(Times(c.addons[k].variants[j].price, Default(s.quantity, 1.0)))
  }

  // ---------- Colour and size ----------

  function Colours(p: Product): seq<ColourVariant> {
    if p.clothing.Some? then p.clothing.value.colours else []
  }

  function WithId(id: Id): SizeVariant -> bool {
    (v: SizeVariant) => v.id == id
  }

  function HasSize(id: Id): ColourVariant -> bool {
    (c: ColourVariant) => Find(c.variants, WithId(id)).Some?
  }

  function IsColour(id: Id): ColourVariant -> bool {
    (c: ColourVariant) => c.id == id
  }

  /** The size of a colour that a selection means: the one it names, or the only one there is. */
  function SizeWithin(c: ColourVariant, size: string): (r: Option<nat>)
    ensures r.Some? ==> r.value < |c.variants|
  {
    var named := if size == "" then None else Find(c.variants, OfSize(size));
    if named.Some? then named else if |c.variants| == 1 then Some(0) else None
  }

  datatype Place = Place(colour: nat, size: nat)

  /** Where a selection points: its id is a size's, or else a colour's. */
  function Resolve(colours: seq<ColourVariant>, s: ColourSelection): (r: Option<Place>)
    ensures r.Some? ==> r.value.colour < |colours| && r.value.size < |colours[r.value.colour].variants|
  {
    match Find(colours, HasSize(s.id))
    case Some(c) => Some(Place(c, Find(colours[c].variants, WithId(s.id)).value))
    case None =>
      match Find(colours, IsColour(s.id))
      case None => None
      case Some(c) =>
        match SizeWithin(colours[c], s.size)
        case None => None
        case Some(v) => Some(Place(c, v))
  }

  function Resolved(colours: seq<ColourVariant>, s: ColourSelection): SizeVariant
    requires Resolve(colours, s).Some?
  {
    var at := Resolve(colours, s).value;
    colours[at.colour].variants[at.size]
  }

  function ColourUnit(colours: seq<ColourVariant>): ColourSelection -> Price {
    (s: ColourSelection) =>
      if Resolve(colours, s).None? then Refused
      else
        var v := Resolved(colours, s);
        if v.stock < Default(s.quantity, 0.0) then Refused else Cost(Times(v.price, Default(s.quantity, 1.0)))
  }

  // ---------- Component costs ----------

  function StyleCost(p: Product, s: seq<StyleSelection>): Price {
    if p.clothing.None? then Cost(0.0) else Costs(s, StyleUnit(p.clothing.value))
  }

  function FabricCost(p: Product, s: seq<FabricSelection>): Price {
    Rounded(Costs(s, FabricUnit(p)))
  }

  function AccessoryCost(p: Product, s: seq<AccessorySelection>, quantity: real): Price {
    if p.kind == AccessoryKind && s == [] then Cost(Round(Times(EffectivePrice(p), quantity)))
    else Rounded(Costs(s, AccessoryUnit(p)))
  }

  function ColourCost(p: Product, s: seq<ColourSelection>): Price {
    Rounded(Costs(s, ColourUnit(Colours(p))))
  }

  function AddonCost(p: Product, s: seq<AddonSelection>): Price {
    if p.clothing.None? || p.clothing.value.addons == [] then Cost(0.0)
    else Rounded(Costs(s, AddonUnit(p.clothing.value)))
  }

  method CalculateStyleCost(p: Product, s: seq<StyleSelection>) returns (total: Price)
    ensures total == StyleCost(p, s)
  {
    total := Cost(0.0);
    if p.clothing.Some? {
      total := Accumulate(s, StyleUnit(p.clothing.value));
    }
  }

  method CalculateFabricCost(p: Product, s: seq<FabricSelection>) returns (total: Price)
    ensures total == FabricCost(p, s)
  {
    total := Accumulate(s, FabricUnit(p));
    total := Rounded(total);
  }

  method CalculateAccessoryTotal(p: Product, s: seq<AccessorySelection>, quantity: real) returns (total: Price)
    ensures total == AccessoryCost(p, s, quantity)
  {
    if p.kind == AccessoryKind && s == [] {
      return Cost(Round(Times(EffectivePrice(p), quantity)));
    }
    total := Accumulate(s, AccessoryUnit(p));
    total := Rounded(total);
  }

  method CalculateColorVariantCost(p: Product, s: seq<ColourSelection>) returns (total: Price)
    ensures total == ColourCost(p, s)
  {
    total := Accumulate(s, ColourUnit(Colours(p)));
    total := Rounded(total);
  }

  method CalculateAddonCost(p: Product, s: seq<AddonSelection>) returns (total: Price)
    ensures total == AddonCost(p, s)
  {
    total := Cost(0.0);
    if p.clothing.Some? && p.clothing.value.addons != [] {
      total := Accumulate(s, AddonUnit(p.clothing.value));
      total := Rounded(total);
    }
  }

  // ---------- The price of an item ----------

  /** The five component costs of a clothing item, or nothing if one of them is refused. */
  datatype Parts = Parts(styles: real, fabrics: real, accessories: real, colours: real, addons: real)

  function PartsOf(p: Product, s: Selections): Option<Parts> {
    var styles, fabrics := StyleCost(p, s.styles), FabricCost(p, s.fabrics);
    var accessories, colours, addons := AccessoryCost(p, s.accessories, 1.0), ColourCost(p, s.colours),
      AddonCost(p, s.addons);
    if styles.Cost? && fabrics.Cost? && accessories.Cost? && colours.Cost? && addons.Cost? then
      Some(Parts(styles.amount, fabrics.amount, accessories.amount, colours.amount, addons.amount))
    else None
  }

  function Extras(p: Parts): real {
    p.styles + p.fabrics + p.accessories + p.colours + p.addons
  }

  function DiscountAmount(total: real, d: Discount): real {
    match d.kind
    case Percentage | FlashPercentage | StoreWide => Times(total, d.value) / 100.0
    case Fixed | FlashFixed => Min(d.value, total)
    case CategorySpecific => 0.0
  }

  predicate Customized(p: Product) {
    p.clothing.Some? && p.clothing.value.customize
  }

  /** A custom piece takes its base price; the markdown of ready-to-wear is in its unit price. */
  function ChargedBase(p: Product, quantity: real): real {
    Times(if Customized(p) then p.basePrice else EffectivePrice(p), quantity)
  }

  /** A custom piece is marked down as a whole. */
  function MarkedDown(p: Product, total: real): real {
    if Customized(p) && p.discount.Some? then Max0(total - DiscountAmount(total, p.discount.value)) else total
  }

  function ClothingPrice(p: Product, quantity: real, extras: real): real {
    MarkedDown(p, ChargedBase(p, quantity) + extras)
  }

  function FabricItemTotal(p: Product, item: Item): Price {
    if item.selections.fabrics != [] then Rounded(FabricCost(p, item.selections.fabrics))
    else Cost(Round(Times(EffectivePrice(p), Default(item.quantity, 1.0))))
  }

  function Summed(p: Product, s: Selections, base: real): Price {
    var parts := PartsOf(p, s);
    if parts.None? then Refused else Cost(base + Extras(parts.value))
  }

  function ClothingTotal(p: Product, item: Item): Price {
    var parts := PartsOf(p, item.selections);
    if parts.None? then Refused
    else Cost(Round(ClothingPrice(p, Default(item.quantity, 1.0), Extras(parts.value))))
  }

  /** The total of one item, or nothing when it cannot be priced. */
  function ItemTotal(item: Item): Price {
    if item.product.None? then Refused
    else
      var p, quantity := item.product.value, Default(item.quantity, 1.0);
      match p.kind
      case ClothingKind => ClothingTotal(p, item)
      case FabricKind => FabricItemTotal(p, item)
      case AccessoryKind => AccessoryCost(p, item.selections.accessories, quantity)
      case OtherKind => Cost(0.0)
  }

  /** Adds the component costs to the base; the colour cost was looked up first. */
  method AddComponents(p: Product, s: Selections, base: real, colours: real) returns (total: Price)
    requires ColourCost(p, s.colours) == Cost(colours)
    ensures total == Summed(p, s, base)
  {
    var fabrics := CalculateFabricCost(p, s.fabrics);
    if fabrics.Refused? { return Refused; }
    var sum := base + fabrics.amount;
    var accessories := CalculateAccessoryTotal(p, s.accessories, 1.0);
    if accessories.Refused? { return Refused; }
    sum := sum + accessories.amount + colours;
    var styles := CalculateStyleCost(p, s.styles);
    if styles.Refused? { return Refused; }
    sum := sum + styles.amount;
    var addons := CalculateAddonCost(p, s.addons);
    if addons.Refused? { return Refused; }
    return Cost(sum + addons.amount);
  }

  method DiscountedPrice(p: Product, quantity: real, ghost extras: real, sum: real) returns (price: real)
    requires sum == ChargedBase(p, quantity) + extras
    ensures price == Round(ClothingPrice(p, quantity, extras))
  {
    price := sum;
    if Customized(p) {
      if p.discount.Some? {
        price := Max0(price - DiscountAmount(price, p.discount.value));
      }
    }
    assert price == ClothingPrice(p, quantity, extras);
    price := Round(price);
  }

  method BaseCharge(p: Product, quantity: real) returns (base: real)
    ensures base == ChargedBase(p, quantity)
  {
    base := 0.0;
    if Customized(p) {
      base := base + Times(p.basePrice, quantity);
    } else {
      base := base + Times(EffectivePrice(p), quantity);
    }
  }

  method CalculateClothingTotal(p: Product, item: Item) returns (total: Price)
    ensures total == ClothingTotal(p, item)
  {
    var quantity := Default(item.quantity, 1.0);
    var colours := CalculateColorVariantCost(p, item.selections.colours);
    if colours.Refused? { return Refused; }
    var base := BaseCharge(p, quantity);
    total := AddComponents(p, item.selections, base, colours.amount);
    if total.Refused? { return; }
    var price := DiscountedPrice(p, quantity, Extras(PartsOf(p, item.selections).value), total.amount);
    return Cost(price);
  }

  method CalculateItemTotal(item: Item) returns (total: Price)
    ensures total == ItemTotal(item)
  {
    if item.product.None? { return Refused; }
    var p := item.product.value;
    match p.kind {
      case ClothingKind => total := CalculateClothingTotal(p, item);
      case FabricKind =>
        if item.selections.fabrics != [] {
          total := CalculateFabricCost(p, item.selections.fabrics);
          total := Rounded(total);
        } else {
          total := Cost(Round(Times(EffectivePrice(p), Default(item.quantity, 1.0))));
        }
      case AccessoryKind =>
        total := CalculateAccessoryTotal(p, item.selections.accessories, Default(item.quantity, 1.0));
      case OtherKind => total := Cost(0.0);
    }
  }

  // ---------- The itemized breakdown ----------

  datatype Breakdown = Breakdown(
    base: real, styles: real, fabrics: real, colours: real, accessories: real, addons: real,
    externalFabric: real, before: real, discount: real, final: real)

  function ExternalFabric(item: Item): real {
    if item.applied.None? || item.applied.value.yards <= 0.0 || item.applied.value.pricePerYard <= 0.0 then 0.0
    else Round(Times(item.applied.value.pricePerYard, item.applied.value.yards))
  }

  /** What a clothing item shows as taken off: the markdown of its base, or the discount on the whole piece. */
  function ShownDiscount(p: Product, quantity: real, before: real): real {
    if Customized(p) then
      if p.discount.Some? then Min(DiscountAmount(before, p.discount.value), before) else 0.0
    else Max0(Times(p.basePrice, quantity) - Times(EffectivePrice(p), quantity))
  }

  function ClothingBreakdown(p: Product, item: Item, c: Parts): Breakdown {
    var base := Times(p.basePrice, Default(item.quantity, 1.0));
    var before := base + Extras(c);
    var discount := ShownDiscount(p, Default(item.quantity, 1.0), before);
    Breakdown(Round(base), Round(c.styles), Round(c.fabrics), Round(c.colours), Round(c.accessories), Round(c.addons),
              Round(ExternalFabric(item)), Round(before), Round(discount), Round(Max0(before - discount)))
  }

  /** The undiscounted price, what is taken off it, and what is left. */
  function BreakdownOf(item: Item): Option<Breakdown> {
    if item.product.None? then None
    else
      var p := item.product.value;
      if p.kind == ClothingKind then
        var parts := PartsOf(p, item.selections);
        if parts.None? then None else Some(ClothingBreakdown(p, item, parts.value))
      else
        var total := ItemTotal(item);
        if total.Refused? then None
        else
          var shown := if p.kind == AccessoryKind && 0.0 < p.discountedPrice < p.basePrice
            then Round(Times(p.basePrice, Default(item.quantity, 1.0))) else total.amount;
          Some(Breakdown(shown, 0.0, 0.0, 0.0, 0.0, 0.0, 0.0, shown, Max0(Round(shown - total.amount)), total.amount))
  }

  method ComponentCosts(p: Product, s: Selections) returns (c: Option<Parts>)
    ensures c == PartsOf(p, s)
  {
    var styles := CalculateStyleCost(p, s.styles);
    if styles.Refused? { return None; }
    var fabrics := CalculateFabricCost(p, s.fabrics);
    if fabrics.Refused? { return None; }
    var accessories := CalculateAccessoryTotal(p, s.accessories, 1.0);
    if accessories.Refused? { return None; }
    var colours := CalculateColorVariantCost(p, s.colours);
    if colours.Refused? { return None; }
    var addons := CalculateAddonCost(p, s.addons);
    if addons.Refused? { return None; }
    return Some(Parts(styles.amount, fabrics.amount, accessories.amount, colours.amount, addons.amount));
  }

  method CalculateClothingBreakdown(p: Product, item: Item, c: Parts) returns (b: Breakdown)
    ensures b == ClothingBreakdown(p, item, c)
  {
    var quantity := Default(item.quantity, 1.0);
    var base, baseDiscount := Times(p.basePrice, quantity), 0.0;
    if !Customized(p) {
      baseDiscount := Max0(base - Times(EffectivePrice(p), quantity));
    }
    var before := base + c.styles + c.fabrics + c.accessories + c.colours + c.addons;
    assert before == base + Extras(c);
    var discount := baseDiscount;
    if Customized(p) && p.discount.Some? {
      discount := Min(DiscountAmount(before, p.discount.value), before);
    }
    assert discount == ShownDiscount(p, quantity, before);
    var final := Max0(before - discount);
    return Breakdown(Round(base), Round(c.styles), Round(c.fabrics), Round(c.colours), Round(c.accessories),
                     Round(c.addons),
                     Round(ExternalFabric(item)), Round(before), Round(discount), Round(final));
  }

  method CalculateItemBreakdown(item: Item) returns (b: Option<Breakdown>)
    ensures b == BreakdownOf(item)
  {
    if item.product.None? { return None; }
    var p := item.product.value;
    if p.kind == ClothingKind {
      var c := ComponentCosts(p, item.selections);
      if c.None? { return None; }
      var garment := CalculateClothingBreakdown(p, item, c.value);
      return Some(garment);
    }
    b := CalculateFlatBreakdown(p, item);
  }

  /** Fabrics and accessories: a flat price, with the markdown of an accessory shown. */
  method CalculateFlatBreakdown(p: Product, item: Item) returns (b: Option<Breakdown>)
    requires item.product == Some(p) && p.kind != ClothingKind
    ensures b == BreakdownOf(item)
  {
    var total := CalculateItemTotal(item);
    if total.Refused? { return None; }
    var shown := total.amount;
    if p.kind == AccessoryKind && 0.0 < p.discountedPrice < p.basePrice {
      shown := Round(Times(p.basePrice, Default(item.quantity, 1.0)));
    }
    return Some(Breakdown(shown, 0.0, 0.0, 0.0, 0.0, 0.0, 0.0, shown, Max0(Round(shown - total.amount)), total.amount));
  }

  // ---------- The two prices agree ----------

  predicate PositiveSizes(variants: seq<SizeVariant>) {
    forall v :: v in variants ==> v.price >= 0.0 && v.yards >= 0.0
  }

  predicate PositiveClothing(c: Clothing) {
    && (forall x :: x in c.styles ==> x.price >= 0.0)
    && (forall x :: x in c.colours ==> PositiveSizes(x.variants))
    && (forall x :: x in c.fabrics ==> x.pricePerYard >= 0.0 && PositiveSizes(x.variants))
    && (forall x :: x in c.yardsPerSize ==> x.yards >= 0.0)
    && (forall x :: x in c.accessories ==> x.price >= 0.0)
    && (forall x :: x in c.addons ==> forall v :: v in x.variants ==> v.price >= 0.0)
  }

  predicate PositiveQuantity(q: Option<real>) {
    Default(q, 1.0) >= 0.0
  }

  /** No price, yardage or quantity is negative. */
  predicate NonNegative(item: Item) {
    var s := item.selections;
    && PositiveQuantity(item.quantity)
    && (item.product.Some? ==> item.product.value.basePrice >= 0.0)
    && (item.product.Some? && item.product.value.clothing.Some? ==> PositiveClothing(item.product.value.clothing.value))
    && (forall x :: x in s.styles ==> PositiveQuantity(x.quantity))
    && (forall x :: x in s.colours ==> PositiveQuantity(x.quantity))
    && (forall x :: x in s.fabrics ==> PositiveQuantity(x.quantity) && x.yardage >= 0.0)
    && (forall x :: x in s.accessories ==> PositiveQuantity(x.quantity))
    && (forall x :: x in s.addons ==> PositiveQuantity(x.quantity))
  }

  lemma TimesNonNegative(x: real, y: real)
    requires x >= 0.0 && y >= 0.0
    ensures Times(x, y) >= 0.0
  {
  }

  lemma TimesMonotone(x: real, y: real, q: real)
    requires x <= y && q >= 0.0
    ensures Times(x, q) <= Times(y, q)
  {
    assert (y - x) * q >= 0.0;
  }

  lemma RoundNonNegative(x: Price)
    requires x.Cost? ==> x.amount >= 0.0
    ensures x.Cost? ==> Rounded(x).amount >= 0.0
  {
    if x.Cost? { RoundMonotone(0.0, x.amount); }
  }

  lemma StyleNonNegative(c: Clothing, s: StyleSelection)
    requires PositiveClothing(c) && PositiveQuantity(s.quantity)
    ensures StyleUnit(c)(s).Cost? ==> StyleUnit(c)(s).amount >= 0.0
  {
    match Find(c.styles, IsStyle(s.id))
    case None =>
    case Some(k) =>
      assert c.styles[k] in c.styles;
      TimesNonNegative(c.styles[k].price, Default(s.quantity, 1.0));
  }

  lemma FabricNonNegative(p: Product, s: FabricSelection)
    requires p.kind == ClothingKind && p.clothing.Some? && PositiveClothing(p.clothing.value)
    requires PositiveQuantity(s.quantity) && s.yardage >= 0.0
    ensures FabricUnit(p)(s).Cost? ==> FabricUnit(p)(s).amount >= 0.0
  {
    var c := p.clothing.value;
    match Find(c.fabrics, IsFabric(s.id))
    case None =>
    case Some(k) =>
      assert c.fabrics[k] in c.fabrics;
      var yards := CutYards(c, c.fabrics[k], s);
      YardsNonNegative(c, c.fabrics[k], s);
      TimesNonNegative(yards, c.fabrics[k].pricePerYard);
      TimesNonNegative(Times(yards, c.fabrics[k].pricePerYard), Default(s.quantity, 1.0));
  }

  lemma YardsNonNegative(c: Clothing, f: Fabric, s: FabricSelection)
    requires PositiveClothing(c) && PositiveSizes(f.variants) && s.yardage >= 0.0
    ensures CutYards(c, f, s) >= 0.0
  {
  }

  lemma AccessoryNonNegative(p: Product, s: AccessorySelection)
    requires p.kind == ClothingKind && p.clothing.Some? && PositiveClothing(p.clothing.value)
      && PositiveQuantity(s.quantity)
    ensures AccessoryUnit(p)(s).Cost? ==> AccessoryUnit(p)(s).amount >= 0.0
  {
    var accessories := p.clothing.value.accessories;
    match Find(accessories, IsAccessory(s.id))
    case None =>
    case Some(k) =>
      assert accessories[k] in accessories;
      TimesNonNegative(accessories[k].price, Default(s.quantity, 1.0));
  }

  lemma AddonNonNegative(c: Clothing, s: AddonSelection)
    requires PositiveClothing(c) && PositiveQuantity(s.quantity)
    ensures AddonUnit(c)(s).Cost? ==> AddonUnit(c)(s).amount >= 0.0
  {
    match Find(c.addons, IsAddon(s.id))
    case None =>
    case Some(k) =>
      assert c.addons[k] in c.addons;
      match Find(c.addons[k].variants, IsAddonVariant(s.variant))
      case None =>
      case Some(j) =>
        assert c.addons[k].variants[j] in c.addons[k].variants;
        TimesNonNegative(c.addons[k].variants[j].price, Default(s.quantity, 1.0));
  }

  lemma ColourNonNegative(colours: seq<ColourVariant>, s: ColourSelection)
    requires forall x :: x in colours ==> PositiveSizes(x.variants)
    requires PositiveQuantity(s.quantity)
    ensures ColourUnit(colours)(s).Cost? ==> ColourUnit(colours)(s).amount >= 0.0
  {
    if Resolve(colours, s).Some? {
      var at := Resolve(colours, s).value;
      assert colours[at.colour] in colours && Resolved(colours, s) in colours[at.colour].variants;
      TimesNonNegative(Resolved(colours, s).price, Default(s.quantity, 1.0));
    }
  }

  lemma ExtrasNonNegative(p: Product, item: Item)
    requires item.product == Some(p) && p.kind == ClothingKind && NonNegative(item)
    ensures PartsOf(p, item.selections).Some? ==> Extras(PartsOf(p, item.selections).value) >= 0.0
  {
    var s := item.selections;
    if p.clothing.Some? {
      var c := p.clothing.value;
      forall x | x in s.styles && StyleUnit(c)(x).Cost?
          ensures StyleUnit(c)(x).amount >= 0.0 { StyleNonNegative(c, x); }
      CostsNonNegative(s.styles, StyleUnit(c));
      forall x | x in s.addons && AddonUnit(c)(x).Cost?
          ensures AddonUnit(c)(x).amount >= 0.0 { AddonNonNegative(c, x); }
      CostsNonNegative(s.addons, AddonUnit(c));
      RoundNonNegative(Costs(s.addons, AddonUnit(c)));
    }
    GoodsNonNegative(p, item);
  }

  lemma GoodsNonNegative(p: Product, item: Item)
    requires item.product == Some(p) && p.kind == ClothingKind && NonNegative(item)
    ensures var s := item.selections;
      && (FabricCost(p, s.fabrics).Cost? ==> FabricCost(p, s.fabrics).amount >= 0.0)
      && (AccessoryCost(p, s.accessories, 1.0).Cost? ==> AccessoryCost(p, s.accessories, 1.0).amount >= 0.0)
      && (ColourCost(p, s.colours).Cost? ==> ColourCost(p, s.colours).amount >= 0.0)
  {
    var s := item.selections;
    forall x | x in s.fabrics && FabricUnit(p)(x).Cost?
        ensures FabricUnit(p)(x).amount >= 0.0 { FabricNonNegative(p, x); }
    CostsNonNegative(s.fabrics, FabricUnit(p));
    RoundNonNegative(Costs(s.fabrics, FabricUnit(p)));
    forall x | x in s.accessories && AccessoryUnit(p)(x).Cost? ensures AccessoryUnit(p)(x).amount >= 0.0 {
      AccessoryNonNegative(p, x);
    }
    CostsNonNegative(s.accessories, AccessoryUnit(p));
    RoundNonNegative(Costs(s.accessories, AccessoryUnit(p)));
    var colours := Colours(p);
    forall x | x in s.colours && ColourUnit(colours)(x).Cost? ensures ColourUnit(colours)(x).amount >= 0.0 {
      ColourNonNegative(colours, x);
    }
    CostsNonNegative(s.colours, ColourUnit(colours));
    RoundNonNegative(Costs(s.colours, ColourUnit(colours)));
  }

  /** Folding the markdown in, or adding it and taking it off again, leaves the same price. */
  lemma ClampsAgree(p: Product, quantity: real, extras: real)
    requires p.basePrice >= 0.0 && quantity >= 0.0 && extras >= 0.0
    ensures var before := Times(p.basePrice, quantity) + extras;
      Max0(before - ShownDiscount(p, quantity, before)) == ClothingPrice(p, quantity, extras)
  {
    TimesMonotone(EffectivePrice(p), p.basePrice, quantity);
    TimesNonNegative(EffectivePrice(p), quantity);
    TimesNonNegative(p.basePrice, quantity);
  }

  lemma ClothingFinal(p: Product, item: Item, c: Parts)
    requires p.basePrice >= 0.0 && PositiveQuantity(item.quantity) && Extras(c) >= 0.0
    ensures ClothingBreakdown(p, item, c).final == Round(ClothingPrice(p, Default(item.quantity, 1.0), Extras(c)))
  {
    ClampsAgree(p, Default(item.quantity, 1.0), Extras(c));
  }

  lemma PricedBy(p: Product, item: Item, c: Parts)
    requires item.product == Some(p) && p.kind == ClothingKind && PartsOf(p, item.selections) == Some(c)
    ensures ItemTotal(item) == Cost(Round(ClothingPrice(p, Default(item.quantity, 1.0), Extras(c))))
  {
  }

  /** The breakdown is refused exactly when the item total is, and its final price is the item total. */
  lemma FinalIsItemTotal(item: Item)
    requires NonNegative(item)
    ensures ItemTotal(item) == if BreakdownOf(item).Some? then Cost(BreakdownOf(item).value.final) else Refused
  {
    if item.product.Some? && item.product.value.kind == ClothingKind {
      var p := item.product.value;
      var parts := PartsOf(p, item.selections);
      if parts.Some? {
        ExtrasNonNegative(p, item);
        ClothingFinal(p, item, parts.value);
      }
    }
  }

  lemma RoundStep(x: real)
    ensures x - 0.005 < Round(x) <= x + 0.005
  {
    assert (100.0 * x + 0.5).Floor as real <= 100.0 * x + 0.5 < (100.0 * x + 0.5).Floor as real + 1.0;
  }

  /** The lines a garment shows, price before, discount and final, fit together to within a hundredth. */
  lemma ShownDiscountFits(p: Product, item: Item, c: Parts)
    requires p.basePrice >= 0.0 && PositiveQuantity(item.quantity) && Extras(c) >= 0.0
    ensures var b := ClothingBreakdown(p, item, c);
      -0.01 <= b.before - b.discount - b.final <= 0.01
  {
    var quantity := Default(item.quantity, 1.0);
    var before := Times(p.basePrice, quantity) + Extras(c);
    var discount := ShownDiscount(p, quantity, before);
    BeforeCoversDiscount(p, quantity, Extras(c));
    RoundGap(before, discount);
  }

  lemma BeforeCoversDiscount(p: Product, quantity: real, extras: real)
    requires p.basePrice >= 0.0 && quantity >= 0.0 && extras >= 0.0
    ensures var before := Times(p.basePrice, quantity) + extras; before >= ShownDiscount(p, quantity, before)
  {
    TimesMonotone(EffectivePrice(p), p.basePrice, quantity);
    TimesNonNegative(EffectivePrice(p), quantity);
    TimesNonNegative(p.basePrice, quantity);
  }

  lemma RoundGap(x: real, y: real)
    ensures -0.01 <= Round(x) - Round(y) - Round(x - y) <= 0.01
  {
    RoundStep(x);
    RoundStep(y);
    RoundStep(x - y);
    var i, j, k := (100.0 * x + 0.5).Floor, (100.0 * y + 0.5).Floor, (100.0 * (x - y) + 0.5).Floor;
    assert -1.5 < (i - j - k) as real < 1.5;
  }

  // ---------- The total of a new order ----------

  /** What an item adds to the order's total: its price, and its external fabric. */
  function ItemCharge(item: Item): real {
    if BreakdownOf(item).Some? then BreakdownOf(item).value.final + BreakdownOf(item).value.externalFabric else 0.0
  }

  function GoodsCharge(item: Item): real {
    AmountOf(ItemTotal(item))
  }

  function FabricCharge(item: Item): real {
    if BreakdownOf(item).Some? then BreakdownOf(item).value.externalFabric else 0.0
  }

  function Fee(x: real): real {
    x
  }

  /** The subtotal, rounded once more over the already rounded items. */
  method CalculateOrderTotal(items: seq<Item>) returns (subtotal: Price)
    ensures subtotal == Rounded(Costs(items, ItemTotal))
  {
    var sum := 0.0;
    for i := 0 to |items|
      invariant Costs(items[..i], ItemTotal) == Cost(sum)
    {
      CostsNext(items, i, ItemTotal);
      var price := CalculateItemTotal(items[i]);
      if price.Refused? {
        CostsMeaning(items, ItemTotal);
        return Refused;
      }
      sum := sum + price.amount;
    }
    assert items[..|items|] == items;
    return Cost(Round(sum));
  }

  datatype Totals = Totals(subtotal: real, shipping: real, total: real)

  /**
    The totals a new order is stored with, or nothing if an item cannot be priced or no shipment was chosen.
    `pricing` is what is stored with each item.
   */
  method CreateOrder(items: seq<Item>, fees: seq<real>) returns (r: Option<Totals>, pricing: seq<Breakdown>)
    requires forall x :: x in items ==> NonNegative(x)
    ensures r.Some? <==> (forall x :: x in items ==> ItemTotal(x).Cost?) && (items == [] || fees != [])
    ensures r.Some? ==>
      && |pricing| == |items| && (forall i :: 0 <= i < |items| ==> BreakdownOf(items[i]) == Some(pricing[i]))
      && r.value.total == Sum(items, ItemCharge) + Sum(fees, Fee)
      && r.value.shipping == Sum(fees, Fee)
  {
    pricing := [];
    for i := 0 to |items|
      invariant |pricing| == i
      invariant forall j :: 0 <= j < i ==> BreakdownOf(items[j]) == Some(pricing[j]) && ItemTotal(items[j]).Cost?
    {
      var b := CalculateItemBreakdown(items[i]);
      FinalIsItemTotal(items[i]);
      if b.None? {
        assert items[i] in items;
        return None, pricing;
      }
      pricing := pricing + [b.value];
    }
    var subtotal := CalculateOrderTotal(items);
    CostsMeaning(items, ItemTotal);
    var shipping := 0.0;
    for i := 0 to |fees|
      invariant shipping == Sum(fees[..i], Fee)
    {
      assert fees[..i + 1] == fees[..i] + [fees[i]];
      SumAppend(fees[..i], fees[i], Fee);
      shipping := shipping + fees[i];
    }
    assert fees[..|fees|] == fees;
    var fabric := TotalExternalFabric(items, pricing);
    var goods := subtotal.amount + fabric;
    if items != [] && fees == [] { return None, pricing; }
    SubtotalIsGoods(items);
    ChargesSplit(items);
    return Some(Totals(goods, shipping, goods + shipping)), pricing;
  }

  method TotalExternalFabric(items: seq<Item>, pricing: seq<Breakdown>) returns (fabric: real)
    requires |pricing| == |items| && forall i :: 0 <= i < |items| ==> BreakdownOf(items[i]) == Some(pricing[i])
    ensures fabric == Sum(items, FabricCharge)
  {
    fabric := 0.0;
    for i := 0 to |pricing|
      invariant fabric == Sum(items[..i], FabricCharge)
    {
      assert items[..i + 1] == items[..i] + [items[i]];
      SumAppend(items[..i], items[i], FabricCharge);
      fabric := fabric + pricing[i].externalFabric;
    }
    assert items[..|pricing|] == items;
  }

  /** Where every cost is whole hundredths, so is their sum. */
  lemma {:induction false} CentsCosts<S>(s: seq<S>, cost: S -> Price, amount: S -> real)
    requires forall x :: x in s ==> cost(x) == Cost(amount(x)) && IsCents(amount(x))
    ensures Costs(s, cost) == Cost(Sum(s, amount)) && IsCents(Sum(s, amount))
  {
    if s == [] {
      CentsFromInt(0);
    } else {
      assert forall x :: x in s[..|s| - 1] ==> x in s;
      CentsCosts(s[..|s| - 1], cost, amount);
      CentsAdd(Sum(s[..|s| - 1], amount), amount(s[|s| - 1]));
    }
  }

  /** Rounding the sum of the rounded items changes nothing. */
  lemma SubtotalIsGoods(items: seq<Item>)
    requires forall x :: x in items ==> ItemTotal(x).Cost?
    ensures Rounded(Costs(items, ItemTotal)) == Cost(Sum(items, GoodsCharge))
  {
    forall x | x in items ensures IsCents(GoodsCharge(x)) && ItemTotal(x) == Cost(GoodsCharge(x)) {
      TotalIsCents(x);
    }
    CentsCosts(items, ItemTotal, GoodsCharge);
  }

  lemma ChargesSplit(items: seq<Item>)
    requires forall x :: x in items ==> NonNegative(x) && ItemTotal(x).Cost?
    ensures Sum(items, ItemCharge) == Sum(items, GoodsCharge) + Sum(items, FabricCharge)
  {
    forall x | x in items ensures ItemCharge(x) == GoodsCharge(x) + FabricCharge(x) {
      FinalIsItemTotal(x);
    }
    SumOfSums(items, ItemCharge, GoodsCharge, FabricCharge);
  }

  lemma TotalIsCents(item: Item)
    requires ItemTotal(item).Cost?
    ensures IsCents(ItemTotal(item).amount)
  {
    var p, quantity := item.product.value, Default(item.quantity, 1.0);
    match p.kind
    case ClothingKind => RoundIsCents(ClothingPrice(p, quantity, Extras(PartsOf(p, item.selections).value)));
    case FabricKind =>
      if item.selections.fabrics != [] {
        RoundIsCents(FabricCost(p, item.selections.fabrics).amount);
      } else {
        RoundIsCents(Times(EffectivePrice(p), quantity));
      }
    case AccessoryKind =>
      if item.selections.accessories == [] {
        RoundIsCents(Times(EffectivePrice(p), quantity));
      } else {
        RoundIsCents(Costs(item.selections.accessories, AccessoryUnit(p)).amount);
      }
    case OtherKind => CentsFromInt(0);
  }
}
