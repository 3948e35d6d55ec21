/** Rewriting an item's selections to stored ids with explicit quantities, and what that does to its price. */
module Normalization {
  import opened Prelude
  import opened Pricing

  /** The price shown for a size: its surcharge on top of the selling price. */
  function UnitPrice(p: Product, v: SizeVariant): real {
    (if p.discountedPrice > 0.0 then p.discountedPrice else p.basePrice) + v.price
  }

  /** A selection rewritten to name its size by id, with its quantity filled in; nothing if it points nowhere. */
  function NormalColour(p: Product): ColourSelection -> Option<ColourSelection> {
    (s: ColourSelection) =>
      if Resolve(Colours(p), s).None? then None
      else
        var v, quantity := Resolved(Colours(p), s), Default(s.quantity, 1.0);
        Some(ColourSelection(v.id, v.size, Colours(p)[Resolve(Colours(p), s).value.colour].name,
                             Some(quantity), UnitPrice(p, v), Times(UnitPrice(p, v), quantity)))
  }

  /** Rewrites every entry, dropping those that have no rewriting. */
  function Rewritten<S>(s: seq<S>, f: S -> Option<S>): seq<S> {
    if s == [] then []
    else
      var prior, last := Rewritten(s[..|s| - 1], f), f(s[|s| - 1]);
      if last.Some? then prior + [last.value] else prior
  }

  function NormalColours(p: Product, s: seq<ColourSelection>): seq<ColourSelection> {
    Rewritten(s, NormalColour(p))
  }

  lemma {:induction false} RewrittenEach<S>(s: seq<S>, f: S -> Option<S>)
    requires forall x :: x in s ==> f(x).Some?
    ensures |Rewritten(s, f)| == |s| && forall i :: 0 <= i < |s| ==> Rewritten(s, f)[i] == f(s[i]).value
  {
    if s != [] {
      assert forall x :: x in s[..|s| - 1] ==> x in s;
      RewrittenEach(s[..|s| - 1], f);
    }
  }

  lemma {:induction false} RewrittenTwice<S>(s: seq<S>, f: S -> Option<S>)
    requires forall x :: x in s && f(x).Some? ==> f(f(x).value) == f(x)
    ensures Rewritten(Rewritten(s, f), f) == Rewritten(s, f)
  {
    if s != [] {
      var prior := Rewritten(s[..|s| - 1], f);
      assert forall x :: x in s[..|s| - 1] ==> x in s;
      RewrittenTwice(s[..|s| - 1], f);
      if f(s[|s| - 1]).Some? {
        assert Rewritten(s, f)[..|prior|] == prior;
      }
    }
  }

  /** No two sizes of a product share an id. */
  predicate UniqueSizes(colours: seq<ColourVariant>) {
    forall i, j, k, l |
      0 <= i < |colours| && 0 <= k < |colours| && 0 <= j < |colours[i].variants| && 0 <= l < |colours[k].variants| ::
      colours[i].variants[j].id == colours[k].variants[l].id ==> i == k && j == l
  }

  lemma NormalResolves(p: Product, s: ColourSelection)
    requires UniqueSizes(Colours(p)) && Resolve(Colours(p), s).Some?
    ensures Resolve(Colours(p), NormalColour(p)(s).value) == Resolve(Colours(p), s)
  {
    var colours, at, n := Colours(p), Resolve(Colours(p), s).value, NormalColour(p)(s).value;
    var here := colours[at.colour].variants;
    assert WithId(n.id)(here[at.size]);
    assert HasSize(n.id)(colours[at.colour]);
    var c := Find(colours, HasSize(n.id)).value;
    var v := Find(colours[c].variants, WithId(n.id)).value;
    assert colours[c].variants[v].id == here[at.size].id;
  }

  /** Normalising twice is normalising once. */
  lemma ColoursIdempotent(p: Product, s: seq<ColourSelection>)
    requires UniqueSizes(Colours(p))
    ensures NormalColours(p, NormalColours(p, s)) == NormalColours(p, s)
  {
    forall x | x in s && NormalColour(p)(x).Some?
        ensures NormalColour(p)(NormalColour(p)(x).value) == NormalColour(p)(x) {
      NormalResolves(p, x);
    }
    RewrittenTwice(s, NormalColour(p));
  }

  /**
    A normalised colour selection names the size meant and its colour, and shows the selling price, the discounted
    one if it is set, with the size's surcharge, and that times the quantity.
   */
  lemma NormalShowsPrice(p: Product, s: ColourSelection)
    requires Resolve(Colours(p), s).Some?
    ensures var colour := Colours(p)[Resolve(Colours(p), s).value.colour];
      var v := colour.variants[Resolve(Colours(p), s).value.size];
      var selling := if p.discountedPrice > 0.0 then p.discountedPrice else p.basePrice;
      match NormalColour(p)(s)
      case None => false
      case Some(n) =>
        && n.id == v.id && n.size == v.size && n.name == colour.name && n.price == selling + v.price
        && (match s.quantity
            case None => n.quantity == Some(1.0) && n.total == n.price
            case Some(q) => n.quantity == Some(q) && n.total == Times(n.price, q))
  {
    assert Times(UnitPrice(p, Resolved(Colours(p), s)), 1.0) == UnitPrice(p, Resolved(Colours(p), s));
  }

  /** The selection names a quantity, or at least one piece is in stock. */
  predicate Counted(colours: seq<ColourVariant>, s: ColourSelection) {
    s.quantity.Some? || (Resolve(colours, s).Some? && Resolved(colours, s).stock >= 1.0)
  }

  lemma NormalUnit(p: Product, s: ColourSelection)
    requires UniqueSizes(Colours(p)) && ColourUnit(Colours(p))(s).Cost?
    ensures ColourUnit(Colours(p))(NormalColour(p)(s).value)
      == if Counted(Colours(p), s) then ColourUnit(Colours(p))(s) else Refused
  {
    NormalResolves(p, s);
  }

  /** Replacing every entry by one that costs what `amount` says, or is refused unless `kept`. */
  lemma {:induction false} ReplacedCosts<S>(s: seq<S>, t: seq<S>, cost: S -> Price, amount: S -> real, kept: S -> bool)
    requires |s| == |t|
    requires forall i :: 0 <= i < |s| ==> cost(t[i]) == if kept(s[i]) then Cost(amount(s[i])) else Refused
    ensures Costs(t, cost) == if forall x :: x in s ==> kept(x) then Cost(Sum(s, amount)) else Refused
  {
    if s != [] {
      var n := |s| - 1;
      ReplacedCosts(s[..n], t[..n], cost, amount, kept);
      assert s == s[..n] + [s[n]];
    }
  }

  /** The same for a list rewritten entry by entry. */
  lemma RewrittenCosts<S>(s: seq<S>, f: S -> Option<S>, cost: S -> Price, amount: S -> real, kept: S -> bool)
    requires forall x :: x in s ==> f(x).Some? && cost(f(x).value) == if kept(x) then Cost(amount(x)) else Refused
    ensures |Rewritten(s, f)| == |s|
    ensures Costs(Rewritten(s, f), cost) == if forall x :: x in s ==> kept(x) then Cost(Sum(s, amount)) else Refused
  {
    RewrittenEach(s, f);
    forall i | 0 <= i < |s| ensures cost(Rewritten(s, f)[i]) == if kept(s[i]) then Cost(amount(s[i])) else Refused {
      assert s[i] in s;
    }
    ReplacedCosts(s, Rewritten(s, f), cost, amount, kept);
  }

  predicate AllCounted(colours: seq<ColourVariant>, s: seq<ColourSelection>) {
    forall x :: x in s ==> Counted(colours, x)
  }

  lemma NormalCosts(p: Product, s: seq<ColourSelection>)
    requires UniqueSizes(Colours(p)) && Costs(s, ColourUnit(Colours(p))).Cost?
    ensures Costs(NormalColours(p, s), ColourUnit(Colours(p)))
      == if AllCounted(Colours(p), s) then Costs(s, ColourUnit(Colours(p))) else Refused
  {
    var cost, kept := ColourUnit(Colours(p)), x => Counted(Colours(p), x);
    CostsMeaning(s, cost);
    forall x | x in s
      ensures NormalColour(p)(x).Some?
      ensures cost(NormalColour(p)(x).value) == if kept(x) then Cost(Amounts(cost)(x)) else Refused
    {
      NormalUnit(p, x);
    }
    RewrittenCosts(s, NormalColour(p), cost, Amounts(cost), kept);
  }

  /**
    Where the raw selections have a price, the normalised ones have the same price if and only if every
    selection without a quantity points to a size with a piece in stock; otherwise they are refused.
   */
  lemma ColourPriceIff(p: Product, s: seq<ColourSelection>)
    requires UniqueSizes(Colours(p)) && ColourCost(p, s).Cost?
    ensures ColourCost(p, NormalColours(p, s)) == ColourCost(p, s) <==> AllCounted(Colours(p), s)
    ensures ColourCost(p, NormalColours(p, s)) != ColourCost(p, s) ==> ColourCost(p, NormalColours(p, s)).Refused?
  {
    NormalCosts(p, s);
  }

  /** With no quantity and an empty shelf, the raw selection is priced and the normalised one refused. */
  lemma UncountedSelectionIsRefused()
    ensures var p := Product(1, ClothingKind, 100.0, 0.0, None,
        Some(Clothing(false, [], [ColourVariant(2, "Red", [SizeVariant(3, "M", 0.0, 5.0, 0.0)])], [], [], [], [])),
        None, None);
      var s := [ColourSelection(3, "", "", None, 0.0, 0.0)];
      ColourCost(p, s) == Cost(5.0) && ColourCost(p, NormalColours(p, s)) == Refused
  {
    var colours := [ColourVariant(2, "Red", [SizeVariant(3, "M", 0.0, 5.0, 0.0)])];
    var p := Product(1, ClothingKind, 100.0, 0.0, None, Some(Clothing(false, [], colours, [], [], [], [])), None, None);
    var s := ColourSelection(3, "", "", None, 0.0, 0.0);
    assert WithId(3)(colours[0].variants[0]) && HasSize(3)(colours[0]);
    assert Resolve(colours, s) == Some(Place(0, 0));
    assert Costs([s], ColourUnit(colours)) == Cost(5.0) by { assert [s][..0] == []; }
    CentsFromInt(500);
    ColourPriceIff(p, [s]);
    assert s in [s] && !Counted(colours, s);
  }

  // ---------- The other selections ----------

  function NormalStyle(p: Product): StyleSelection -> Option<StyleSelection> {
    (s: StyleSelection) =>
      if p.clothing.None? then None
      else
        match Find(p.clothing.value.styles, IsStyle(s.id))
        case None => None
        case Some(k) => Some(StyleSelection(p.clothing.value.styles[k].id, Some(Default(s.quantity, 1.0))))
  }

  /** The garment's fabric of that id, or else the product's own. */
  function FabricMeant(p: Product, id: Id): Option<Fabric> {
    var k := if p.clothing.Some? then Find(p.clothing.value.fabrics, IsFabric(id)) else None;
    if k.Some? then Some(p.clothing.value.fabrics[k.value]) else p.fabric
  }

  /** Yards are filled in from the fabric's own sizes, or else taken to be one. */
  function NormalFabric(p: Product): FabricSelection -> Option<FabricSelection> {
    (s: FabricSelection) =>
      match FabricMeant(p, s.id)
      case None => None
      case Some(f) =>
        var yards := YardsBySize(f, s, s.yardage);
        Some(FabricSelection(f.id, if yards == 0.0 then 1.0 else yards, "", Some(Default(s.quantity, 1.0))))
  }

  function AccessoryMeant(p: Product, id: Id): Option<Accessory> {
    var k := if p.clothing.Some? then Find(p.clothing.value.accessories, IsAccessory(id)) else None;
    if k.Some? then Some(p.clothing.value.accessories[k.value]) else p.accessory
  }

  /** An unknown variant is dropped. */
  function NormalAccessory(p: Product): AccessorySelection -> Option<AccessorySelection> {
    (s: AccessorySelection) =>
      match AccessoryMeant(p, s.id)
      case None => None
      case Some(a) =>
        var known := s.variant.Some? && Find(a.variants, IsAccessoryVariant(s.variant.value)).Some?;
        Some(AccessorySelection(a.id, if known then s.variant else None, Some(Default(s.quantity, 1.0))))
  }

  /** A normalised accessory keeps the variant it names just if the accessory has it, and fills in one piece. */
  lemma NormalKeepsVariant(p: Product, s: AccessorySelection, a: Accessory)
    requires AccessoryMeant(p, s.id) == Some(a)
    ensures NormalAccessory(p)(s).Some? && NormalAccessory(p)(s).value.id == a.id
    ensures NormalAccessory(p)(s).value.quantity == if s.quantity == None then Some(1.0) else s.quantity
    ensures NormalAccessory(p)(s).value.variant
      == if s.variant.Some? && (exists v :: v in a.variants && v.id == s.variant.value) then s.variant else None
  {
    if s.variant.Some? {
      match Find(a.variants, IsAccessoryVariant(s.variant.value))
      case None =>
        forall v | v in a.variants ensures v.id != s.variant.value {
          var i :| 0 <= i < |a.variants| && a.variants[i] == v;
          assert !IsAccessoryVariant(s.variant.value)(a.variants[i]);
        }
      case Some(k) => assert IsAccessoryVariant(s.variant.value)(a.variants[k]) && a.variants[k] in a.variants;
    }
  }

  function NormalAddon(p: Product): AddonSelection -> Option<AddonSelection> {
    (s: AddonSelection) =>
      if p.clothing.None? then None
      else
        match Find(p.clothing.value.addons, IsAddon(s.id))
        case None => None
        case Some(k) =>
          if Find(p.clothing.value.addons[k].variants, IsAddonVariant(s.variant)).None? then None
          else Some(AddonSelection(p.clothing.value.addons[k].id, s.variant, Some(Default(s.quantity, 1.0))))
  }

  function NormalSelections(p: Product, s: Selections): Selections {
    Selections(NormalColours(p, s.colours), Rewritten(s.styles, NormalStyle(p)), Rewritten(s.fabrics, NormalFabric(p)),
               Rewritten(s.accessories, NormalAccessory(p)), Rewritten(s.addons, NormalAddon(p)))
  }

  /** A product has the record of its kind, and only that one. */
  predicate WellFormed(p: Product) {
    && (p.clothing.Some? <==> p.kind == ClothingKind)
    && (p.fabric.Some? <==> p.kind == FabricKind)
    && (p.accessory.Some? <==> p.kind == AccessoryKind)
  }

  /** Normalising an item's selections twice is normalising them once. */
  lemma NormalIsIdempotent(p: Product, s: Selections)
    requires WellFormed(p) && UniqueSizes(Colours(p))
    ensures NormalSelections(p, NormalSelections(p, s)) == NormalSelections(p, s)
  {
    ColoursIdempotent(p, s.colours);
    RewrittenTwice(s.styles, NormalStyle(p));
    RewrittenTwice(s.fabrics, NormalFabric(p));
    RewrittenTwice(s.accessories, NormalAccessory(p));
    RewrittenTwice(s.addons, NormalAddon(p));
  }

  // ---------- The price of normalised selections ----------

  /** A selection with a variant names a quantity, or a piece of the variant is in stock. */
  predicate AccessoryCounted(p: Product, s: AccessorySelection) {
    s.quantity.Some?
    || (AccessoryMeant(p, s.id).Some?
        && StockState(AccessoryMeant(p, s.id).value, s.(quantity := Some(1.0))) != Short)
  }

  /** The yards charged for a raw selection: a garment's are raised to the least cut. */
  function TakenYards(p: Product, f: Fabric, s: FabricSelection): real {
    if p.clothing.Some? then CutYards(p.clothing.value, f, s) else YardsBySize(f, s, s.yardage)
  }

  /** The yards charged once the fabric's own chart, or else one yard, is filled in. */
  function FilledYards(p: Product, f: Fabric, s: FabricSelection): real {
    var named := YardsBySize(f, s, s.yardage);
    var filled := if named == 0.0 then 1.0 else named;
    if p.clothing.Some? && f.minCut != 0.0 && 0.0 < filled < f.minCut then f.minCut else filled
  }

  function YardsCost(f: Fabric, s: FabricSelection, yards: real): real {
    Times(Times(yards, f.pricePerYard), Default(s.quantity, 1.0))
  }

  function TakenCost(p: Product): FabricSelection -> real {
    (s: FabricSelection) =>
      var f := FabricMeant(p, s.id);
      if f.Some? then YardsCost(f.value, s, TakenYards(p, f.value, s)) else 0.0
  }

  function FilledCost(p: Product): FabricSelection -> real {
    (s: FabricSelection) =>
      var f := FabricMeant(p, s.id);
      if f.Some? then YardsCost(f.value, s, FilledYards(p, f.value, s)) else 0.0
  }

  /** The fabric has the yards that normalising fills in. */
  predicate Stocked(p: Product, s: FabricSelection) {
    FabricMeant(p, s.id).Some? && FilledYards(p, FabricMeant(p, s.id).value, s) <= FabricMeant(p, s.id).value.yards
  }

  predicate SellsYards(p: Product) {
    p.kind == ClothingKind || p.kind == FabricKind
  }

  lemma TimesIff(x: real, y: real, price: real, quantity: real)
    ensures Times(Times(x, price), quantity) == Times(Times(y, price), quantity)
      <==> x == y || price == 0.0 || quantity == 0.0
  {
    assert Times(Times(x, price), quantity) - Times(Times(y, price), quantity) == (x - y) * price * quantity;
    if price == 0.0 { assert Times(x, price) == 0.0 && Times(y, price) == 0.0; }
    if x != y && price != 0.0 && quantity != 0.0 {
      assert (x - y) * price != 0.0;
      assert (x - y) * price * quantity != 0.0;
    }
  }

  lemma RawFabricUnit(p: Product, s: FabricSelection)
    requires WellFormed(p) && SellsYards(p) && FabricUnit(p)(s).Cost?
    ensures FabricMeant(p, s.id).Some? && FabricUnit(p)(s) == Cost(TakenCost(p)(s))
    ensures TakenYards(p, FabricMeant(p, s.id).value, s) <= FabricMeant(p, s.id).value.yards
  {
  }

  lemma NormalFabricUnit(p: Product, s: FabricSelection)
    requires WellFormed(p) && SellsYards(p) && FabricUnit(p)(s).Cost?
    ensures FabricMeant(p, s.id).Some? && NormalFabric(p)(s).Some?
    ensures FabricUnit(p)(NormalFabric(p)(s).value) == if Stocked(p, s) then Cost(FilledCost(p)(s)) else Refused
  {
    var n := NormalFabric(p)(s).value;
    assert FabricMeant(p, n.id) == FabricMeant(p, s.id);
    assert YardsBySize(FabricMeant(p, s.id).value, n, n.yardage) == n.yardage;
  }

  /**
    A priced fabric selection keeps its price if and only if the fabric has the yards filled in, and these are
    the yards charged before or nothing is charged for them; where yards were named, always.
   */
  lemma FabricPriceIff(p: Product, s: FabricSelection)
    requires WellFormed(p) && SellsYards(p) && FabricUnit(p)(s).Cost?
    ensures FabricMeant(p, s.id).Some? && NormalFabric(p)(s).Some?
    ensures var f := FabricMeant(p, s.id).value;
      && (FabricUnit(p)(NormalFabric(p)(s).value) == FabricUnit(p)(s)
          <==> FilledYards(p, f, s) <= f.yards
               && (FilledYards(p, f, s) == TakenYards(p, f, s) || f.pricePerYard == 0.0 || s.quantity == Some(0.0)))
      && (s.yardage != 0.0 ==> FilledYards(p, f, s) == TakenYards(p, f, s) <= f.yards)
  {
    RawFabricUnit(p, s);
    NormalFabricUnit(p, s);
    var f := FabricMeant(p, s.id).value;
    TimesIff(FilledYards(p, f, s), TakenYards(p, f, s), f.pricePerYard, Default(s.quantity, 1.0));
  }

  /** A priced accessory selection keeps its price if and only if it is counted; otherwise it is refused. */
  lemma AccessoryPriceIff(p: Product, s: AccessorySelection)
    requires WellFormed(p) && (p.kind == ClothingKind || p.kind == AccessoryKind) && AccessoryUnit(p)(s).Cost?
    ensures NormalAccessory(p)(s).Some?
    ensures AccessoryUnit(p)(NormalAccessory(p)(s).value)
      == if AccessoryCounted(p, s) then AccessoryUnit(p)(s) else Refused
  {
  }

  predicate AllStocked(p: Product, s: seq<FabricSelection>) {
    forall x :: x in s ==> Stocked(p, x)
  }

  predicate AllAccessoriesCounted(p: Product, s: seq<AccessorySelection>) {
    forall x :: x in s ==> AccessoryCounted(p, x)
  }

  lemma RawFabricCost(p: Product, s: seq<FabricSelection>)
    requires WellFormed(p) && SellsYards(p) && FabricCost(p, s).Cost?
    ensures FabricCost(p, s) == Cost(Round(Sum(s, TakenCost(p))))
  {
    CostsMeaning(s, FabricUnit(p));
    forall x | x in s ensures Amounts(FabricUnit(p))(x) == TakenCost(p)(x) { RawFabricUnit(p, x); }
    SumAgree(s, Amounts(FabricUnit(p)), TakenCost(p));
  }

  lemma NormalFabricCost(p: Product, s: seq<FabricSelection>)
    requires WellFormed(p) && SellsYards(p) && FabricCost(p, s).Cost?
    ensures |Rewritten(s, NormalFabric(p))| == |s|
    ensures FabricCost(p, Rewritten(s, NormalFabric(p)))
      == if AllStocked(p, s) then Cost(Round(Sum(s, FilledCost(p)))) else Refused
  {
    CostsMeaning(s, FabricUnit(p));
    var kept := x => Stocked(p, x);
    forall x | x in s
      ensures NormalFabric(p)(x).Some?
      ensures FabricUnit(p)(NormalFabric(p)(x).value) == if kept(x) then Cost(FilledCost(p)(x)) else Refused
    {
      NormalFabricUnit(p, x);
    }
    RewrittenCosts(s, NormalFabric(p), FabricUnit(p), FilledCost(p), kept);
  }

  lemma NormalAccessoryCost(p: Product, s: seq<AccessorySelection>, quantity: real)
    requires WellFormed(p) && (p.kind == ClothingKind || p.kind == AccessoryKind)
    requires AccessoryCost(p, s, quantity).Cost?
    ensures AccessoryCost(p, Rewritten(s, NormalAccessory(p)), quantity)
      == if AllAccessoriesCounted(p, s) then AccessoryCost(p, s, quantity) else Refused
  {
    if s != [] {
      var cost, kept := AccessoryUnit(p), x => AccessoryCounted(p, x);
      CostsMeaning(s, cost);
      forall x | x in s
        ensures NormalAccessory(p)(x).Some?
        ensures cost(NormalAccessory(p)(x).value) == if kept(x) then Cost(Amounts(cost)(x)) else Refused
      {
        AccessoryPriceIff(p, x);
      }
      RewrittenCosts(s, NormalAccessory(p), cost, Amounts(cost), kept);
    }
  }

  lemma NormalStyleCost(p: Product, s: seq<StyleSelection>)
    requires p.clothing.Some? && StyleCost(p, s).Cost?
    ensures StyleCost(p, Rewritten(s, NormalStyle(p))) == StyleCost(p, s)
  {
    var cost := StyleUnit(p.clothing.value);
    CostsMeaning(s, cost);
    RewrittenCosts(s, NormalStyle(p), cost, Amounts(cost), x => true);
  }

  lemma NormalAddonCost(p: Product, s: seq<AddonSelection>)
    requires p.clothing.Some? && AddonCost(p, s).Cost?
    ensures AddonCost(p, Rewritten(s, NormalAddon(p))) == AddonCost(p, s)
  {
    if p.clothing.value.addons != [] {
      var cost := AddonUnit(p.clothing.value);
      CostsMeaning(s, cost);
      RewrittenCosts(s, NormalAddon(p), cost, Amounts(cost), x => true);
    }
  }

  /** Some selection that had a price has none once normalised. */
  predicate RefusedOnceNormal(p: Product, s: Selections) {
    match p.kind
    case ClothingKind =>
      !AllCounted(Colours(p), s.colours) || !AllStocked(p, s.fabrics) || !AllAccessoriesCounted(p, s.accessories)
    case FabricKind => !AllStocked(p, s.fabrics)
    case AccessoryKind => !AllAccessoriesCounted(p, s.accessories)
    case OtherKind => false
  }

  /** By how much the yards filled in change the fabric line. */
  function FabricShift(p: Product, s: seq<FabricSelection>): real {
    Round(Sum(s, FilledCost(p))) - Round(Sum(s, TakenCost(p)))
  }

  function Shifted(c: Parts, shift: real): Parts {
    c.(fabrics := c.fabrics + shift)
  }

  lemma NormalParts(p: Product, s: Selections)
    requires WellFormed(p) && p.kind == ClothingKind && UniqueSizes(Colours(p)) && PartsOf(p, s).Some?
    ensures PartsOf(p, NormalSelections(p, s)).None? <==> RefusedOnceNormal(p, s)
    ensures !RefusedOnceNormal(p, s) ==>
      PartsOf(p, NormalSelections(p, s)) == Some(Shifted(PartsOf(p, s).value, FabricShift(p, s.fabrics)))
  {
    NormalStyleCost(p, s.styles);
    RawFabricCost(p, s.fabrics);
    NormalFabricCost(p, s.fabrics);
    NormalAccessoryCost(p, s.accessories, 1.0);
    ColourPriceIff(p, s.colours);
    NormalAddonCost(p, s.addons);
    if !RefusedOnceNormal(p, s) {
      PartsBut(p, s, NormalSelections(p, s), Round(Sum(s.fabrics, FilledCost(p))));
      ShiftedTo(PartsOf(p, s).value, Round(Sum(s.fabrics, FilledCost(p))), Round(Sum(s.fabrics, TakenCost(p))));
    }
  }

  lemma ShiftedTo(c: Parts, to: real, from: real)
    requires c.fabrics == from
    ensures Shifted(c, to - from) == c.(fabrics := to)
  {
  }

  /** The parts of selections that differ in their fabrics only. */
  lemma PartsBut(p: Product, s: Selections, n: Selections, fabrics: real)
    requires PartsOf(p, s).Some? && FabricCost(p, n.fabrics) == Cost(fabrics)
    requires StyleCost(p, n.styles) == StyleCost(p, s.styles) && ColourCost(p, n.colours) == ColourCost(p, s.colours)
    requires AccessoryCost(p, n.accessories, 1.0) == AccessoryCost(p, s.accessories, 1.0)
    requires AddonCost(p, n.addons) == AddonCost(p, s.addons)
    ensures PartsOf(p, n) == Some(PartsOf(p, s).value.(fabrics := fabrics))
  {
  }

  function Normalized(item: Item): Item
    requires item.product.Some?
  {
    item.(selections := NormalSelections(item.product.value, item.selections))
  }

  /**
    The price charged at checkout, on normalised selections, against the price shown before it, on the raw ones.
    It is refused if and only if a selection without a quantity finds an empty shelf or the yards filled in are
    not in stock. Otherwise only the fabric line moves; where it does not, the price is kept, and without a
    discount on the whole piece the price is kept only then.
   */
  lemma NormalizingKeepsPriceIff(item: Item)
    requires item.product.Some? && WellFormed(item.product.value) && UniqueSizes(Colours(item.product.value))
    requires ItemTotal(item).Cost?
    ensures var p, s := item.product.value, item.selections;
      var discounted := p.kind == ClothingKind && Customized(p) && p.discount.Some?;
      && (ItemTotal(Normalized(item)).Refused? <==> RefusedOnceNormal(p, s))
      && (ItemTotal(Normalized(item)).Cost? && (SellsYards(p) ==> FabricShift(p, s.fabrics) == 0.0) ==>
           ItemTotal(Normalized(item)) == ItemTotal(item))
      && (ItemTotal(Normalized(item)).Cost? && SellsYards(p) && !discounted
          && (p.kind == FabricKind ==> s.fabrics != []) ==>
           ItemTotal(Normalized(item)) == Cost(ItemTotal(item).amount + FabricShift(p, s.fabrics)))
  {
    var p, s := item.product.value, item.selections;
    match p.kind
    case ClothingKind =>
      NormalParts(p, s);
      if !RefusedOnceNormal(p, s) {
        if FabricShift(p, s.fabrics) == 0.0 { GarmentKept(p, item); }
        if !(Customized(p) && p.discount.Some?) { GarmentMoved(p, item); }
      }
    case FabricKind => if s.fabrics != [] { FabricItemShift(p, item); }
    case AccessoryKind => NormalAccessoryCost(p, s.accessories, Default(item.quantity, 1.0));
    case OtherKind =>
  }

  lemma GarmentKept(p: Product, item: Item)
    requires item.product == Some(p) && WellFormed(p) && p.kind == ClothingKind && UniqueSizes(Colours(p))
    requires PartsOf(p, item.selections).Some? && !RefusedOnceNormal(p, item.selections)
    requires FabricShift(p, item.selections.fabrics) == 0.0
    ensures ItemTotal(Normalized(item)) == ItemTotal(item)
  {
    var c := PartsOf(p, item.selections).value;
    NormalParts(p, item.selections);
    assert Shifted(c, FabricShift(p, item.selections.fabrics)) == c;
    PricedBy(p, item, c);
    PricedBy(p, Normalized(item), c);
  }

  lemma GarmentMoved(p: Product, item: Item)
    requires item.product == Some(p) && WellFormed(p) && p.kind == ClothingKind && UniqueSizes(Colours(p))
    requires PartsOf(p, item.selections).Some? && !RefusedOnceNormal(p, item.selections)
    requires !(Customized(p) && p.discount.Some?)
    ensures ItemTotal(Normalized(item)) == Cost(ItemTotal(item).amount + FabricShift(p, item.selections.fabrics))
  {
    var c, s := PartsOf(p, item.selections).value, item.selections.fabrics;
    NormalParts(p, item.selections);
    PricedBy(p, item, c);
    PricedBy(p, Normalized(item), Shifted(c, FabricShift(p, s)));
    FlatShift(p, Default(item.quantity, 1.0), c, s);
  }

  lemma FlatShift(p: Product, quantity: real, c: Parts, s: seq<FabricSelection>)
    requires !(Customized(p) && p.discount.Some?)
    ensures Round(ClothingPrice(p, quantity, Extras(Shifted(c, FabricShift(p, s)))))
      == Round(ClothingPrice(p, quantity, Extras(c))) + FabricShift(p, s)
  {
    RoundShift(ChargedBase(p, quantity) + Extras(c), Sum(s, FilledCost(p)), Sum(s, TakenCost(p)));
    assert ChargedBase(p, quantity) + Extras(Shifted(c, FabricShift(p, s)))
      == ChargedBase(p, quantity) + Extras(c) + FabricShift(p, s);
  }

  /** Rounding carries whole hundredths along. */
  lemma RoundShift(x: real, y: real, z: real)
    ensures Round(x + (Round(y) - Round(z))) == Round(x) + (Round(y) - Round(z))
  {
    var k := (100.0 * y + 0.5).Floor - (100.0 * z + 0.5).Floor;
    assert 100.0 * (x + (Round(y) - Round(z))) + 0.5 == (100.0 * x + 0.5) + k as real;
    assert ((100.0 * x + 0.5) + k as real).Floor == (100.0 * x + 0.5).Floor + k;
  }

  lemma FabricItemShift(p: Product, item: Item)
    requires item.product == Some(p) && WellFormed(p) && p.kind == FabricKind && item.selections.fabrics != []
    requires ItemTotal(item).Cost?
    ensures ItemTotal(Normalized(item)).Refused? <==> !AllStocked(p, item.selections.fabrics)
    ensures ItemTotal(Normalized(item)).Cost? ==>
      ItemTotal(Normalized(item)) == Cost(ItemTotal(item).amount + FabricShift(p, item.selections.fabrics))
  {
    var s := item.selections.fabrics;
    RawFabricCost(p, s);
    NormalFabricCost(p, s);
    RoundIsCents(Sum(s, TakenCost(p)));
    RoundIsCents(Sum(s, FilledCost(p)));
  }

  /** Where every yardage is named and every other selection is counted, nothing changes. */
  lemma NormalizingKeepsPrice(item: Item)
    requires item.product.Some? && WellFormed(item.product.value) && UniqueSizes(Colours(item.product.value))
    requires AllCounted(Colours(item.product.value), item.selections.colours)
    requires AllAccessoriesCounted(item.product.value, item.selections.accessories)
    requires forall x :: x in item.selections.fabrics ==> x.yardage != 0.0
    requires ItemTotal(item).Cost?
    ensures ItemTotal(Normalized(item)) == ItemTotal(item)
  {
    var p, s := item.product.value, item.selections.fabrics;
    NormalizingKeepsPriceIff(item);
    if SellsYards(p) && s != [] {
      CostsMeaning(s, FabricUnit(p));
      forall x | x in s ensures Stocked(p, x) && FilledCost(p)(x) == TakenCost(p)(x) { FabricPriceIff(p, x); }
      SumAgree(s, FilledCost(p), TakenCost(p));
    }
  }

  /** A garment that takes two yards in a size: shown with two yards, normalised to the one of the fallback. */
  lemma GuessedYardsChangePrice()
    ensures var f := Fabric(5, 10.0, 0.0, 9.0, []);
      var p := Product(1, ClothingKind, 0.0, 0.0, None,
                       Some(Clothing(true, [], [], [f], [SizeYards("M", 2.0)], [], [])), None, None);
      var s := FabricSelection(5, 0.0, "M", Some(1.0));
      FabricUnit(p)(s) == Cost(20.0) && FabricUnit(p)(NormalFabric(p)(s).value) == Cost(10.0)
  {
    var f := Fabric(5, 10.0, 0.0, 9.0, []);
    var c := Clothing(true, [], [], [f], [SizeYards("M", 2.0)], [], []);
    var p := Product(1, ClothingKind, 0.0, 0.0, None, Some(c), None, None);
    var s := FabricSelection(5, 0.0, "M", Some(1.0));
    assert IsFabric(5)(f) && Find(c.fabrics, IsFabric(5)) == Some(0);
    assert Find(c.yardsPerSize, (y: SizeYards) => Lower(y.size) == Lower(s.size)) == Some(0);
  }
}
