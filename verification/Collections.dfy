/** The stored list of collections of each product, kept by two loops and by hand. */
module Collections {
  import opened Conditions
  import opened Prelude

  datatype Collection = Collection(
    active: bool,
    platform: bool,
    business: Option<Id>,
    matchAll: bool,
    conditions: seq<Condition>,
    includes: seq<Id>,
    excludes: seq<Id>)

  datatype Product = Product(business: Option<Id>, collections: seq<Id>)

  /** Products and collections; an id is a position. */
  datatype Catalog = Catalog(products: seq<Product>, collections: seq<Collection>)

  // ---------- The simple rule ----------

  /** Excluding by hand wins, then including by hand, then the rule. */
  predicate Belongs(meets: Meets, c: Collection, p: Id) {
    p !in c.excludes && (p in c.includes || Matches(meets, c.matchAll, c.conditions, p))
  }

  /** The products that applying a collection looks at. */
  predicate Scanned(c: Collection, p: Product) {
    c.active && (c.platform || c.business.None? || p.business == c.business)
  }

  /** The collections that syncing a product looks at. */
  predicate Relevant(c: Collection, p: Product) {
    c.active && (c.platform || (p.business.Some? && c.business == p.business))
  }

  predicate Member(cat: Catalog, p: Id, c: Id) {
    p < |cat.products| && c in cat.products[p].collections
  }

  // ---------- Operations ----------

  function Without(ids: seq<Id>, c: Id): (r: seq<Id>)
    ensures forall x :: x in r <==> x in ids && x != c
  {
    if ids == [] then []
    else
      var rest := Without(ids[..|ids| - 1], c);
      var last := ids[|ids| - 1];
      assert ids == ids[..|ids| - 1] + [last];
      if last == c then rest else rest + [last]
  }

  function With(ids: seq<Id>, c: Id): (r: seq<Id>)
    ensures forall x :: x in r <==> x in ids || x == c
  {
    if c in ids then ids else ids + [c]
  }

  function Placed(ids: seq<Id>, c: Id, belongs: bool): seq<Id> {
    if belongs then With(ids, c) else if c in ids then Without(ids, c) else ids
  }

  function AppliedTo(meets: Meets, c: Collection, id: Id, p: Id, product: Product): Product {
    if Scanned(c, product) then product.(collections := Placed(product.collections, id, Belongs(meets, c, p)))
      else product
  }

  function AppliedUpTo(meets: Meets, cat: Catalog, c: Id, n: nat): Catalog
    requires c < |cat.collections|
  {
    cat.(products := seq(|cat.products|, p requires 0 <= p < |cat.products| =>
      if p < n then AppliedTo(meets, cat.collections[c], c, p, cat.products[p]) else cat.products[p]))
  }

  function Applied(meets: Meets, cat: Catalog, c: Id): Catalog {
    if c >= |cat.collections| then cat else AppliedUpTo(meets, cat, c, |cat.products|)
  }

  /** The list of product `p` after a pass over the first `n` collections. */
  function SyncedUpTo(meets: Meets, cat: Catalog, p: Id, n: nat): seq<Id>
    requires p < |cat.products| && n <= |cat.collections|
  {
    if n == 0 then cat.products[p].collections
    else
      var prior, c := SyncedUpTo(meets, cat, p, n - 1), cat.collections[n - 1];
      if Relevant(c, cat.products[p]) then Placed(prior, n - 1, Belongs(meets, c, p)) else prior
  }

  function WithList(cat: Catalog, p: Id, ids: seq<Id>): Catalog
    requires p < |cat.products|
  {
    cat.(products := cat.products[p := cat.products[p].(collections := ids)])
  }

  function Synced(meets: Meets, cat: Catalog, p: Id): Catalog {
    if p >= |cat.products| then cat else WithList(cat, p, SyncedUpTo(meets, cat, p, |cat.collections|))
  }

  /** A vendor may only touch its own collections. */
  predicate Refused(cat: Catalog, c: Id, business: Option<Id>) {
    c >= |cat.collections|
    || (!cat.collections[c].platform && business.Some? && cat.collections[c].business != business)
  }

  function Included(cat: Catalog, c: Id, p: Id, business: Option<Id>): Catalog {
    if Refused(cat, c, business) then cat
    else
      var k := cat.collections[c];
      var listed := cat.(collections := cat.collections[c :=
        k.(excludes := Without(k.excludes, p), includes := With(k.includes, p))]);
      if p < |cat.products| then WithList(listed, p, With(cat.products[p].collections, c)) else listed
  }

  function Excluded(cat: Catalog, c: Id, p: Id, business: Option<Id>): Catalog {
    if Refused(cat, c, business) then cat
    else
      var k := cat.collections[c];
      var listed := cat.(collections := cat.collections[c :=
        k.(includes := Without(k.includes, p), excludes := With(k.excludes, p))]);
      if p < |cat.products| then WithList(listed, p, Without(cat.products[p].collections, c)) else listed
  }

  /** How many of the first `n` products differ. */
  function Changes(a: seq<Product>, b: seq<Product>, n: nat): nat
    requires n <= |a| == |b|
  {
    if n == 0 then 0 else Changes(a, b, n - 1) + if a[n - 1] != b[n - 1] then 1 else 0
  }

  class CollectionService {
    var products: seq<Product>
    var collections: seq<Collection>
    const meets: Meets

    function State(): Catalog
      reads this
    {
      Catalog(products, collections)
    }

    constructor (products: seq<Product>, collections: seq<Collection>, meets: Meets)
      ensures State() == Catalog(products, collections) && this.meets == meets
    {
      this.products, this.collections, this.meets := products, collections, meets;
    }

    /** Puts a product in a collection or takes it out, as it should be. */
    method Place(p: Id, c: Id, belongs: bool) returns (changed: bool)
      requires p < |products|
      modifies this`products
      ensures State() == WithList(old(State()), p, Placed(old(products[p].collections), c, belongs))
      ensures changed == (products[p] != old(products[p]))
    {
      var product := products[p];
      var alreadyIn := c in product.collections;
      changed := false;
      if belongs && !alreadyIn {
        products := products[p := product.(collections := product.collections + [c])];
        changed := true;
      } else if !belongs && alreadyIn {
        products := products[p := product.(collections := Without(product.collections, c))];
        changed := true;
      }
      assert products[p].collections == Placed(product.collections, c, belongs);
    }

    method Visit(c: Id, p: Id) returns (changed: bool)
      requires p < |products| && c < |collections|
      modifies this`products
      ensures State()
        == old(State()).(products := old(products)[p := AppliedTo(meets, collections[c], c, p, old(products[p]))])
      ensures changed == (products[p] != old(products[p]))
    {
      changed := false;
      if Scanned(collections[c], products[p]) {
        changed := Place(p, c, Belongs(meets, collections[c], p));
      }
    }

    method ApplyCollectionToMatchingProducts(c: Id) returns (updated: nat)
      modifies this`products
      ensures State() == Applied(meets, old(State()), c)
      ensures updated == Changes(old(products), products, |products|)
    {
      updated := 0;
      ghost var before := State();
      if c >= |collections| || !collections[c].active {
        NoChanges(products, |products|);
        return;
      }
      NoChanges(products, 0);
      for p := 0 to |products|
        invariant |products| == |before.products|
        invariant State() == AppliedUpTo(meets, before, c, p)
        invariant updated == Changes(before.products, products, p)
      {
        SameChanges(before.products, products, AppliedUpTo(meets, before, c, p + 1).products, p);
        var changed := Visit(c, p);
        if changed { updated := updated + 1; }
        assert products == AppliedUpTo(meets, before, c, p + 1).products;
      }
    }

    method SyncProductWithCollections(p: Id)
      modifies this`products
      ensures State() == Synced(meets, old(State()), p)
    {
      if p >= |products| { return; }
      ghost var before := State();
      assert State() == WithList(before, p, SyncedUpTo(meets, before, p, 0));
      for n := 0 to |collections|
        invariant State() == WithList(before, p, SyncedUpTo(meets, before, p, n))
      {
        if Relevant(collections[n], products[p]) {
          var changed := Place(p, n, Belongs(meets, collections[n], p));
        }
      }
    }

    method IncludeProduct(c: Id, p: Id, business: Option<Id>) returns (ok: bool)
      modifies this
      ensures State() == Included(old(State()), c, p, business)
      ensures ok == !Refused(old(State()), c, business)
    {
      if c >= |collections| { return false; }
      var k := collections[c];
      if !k.platform && business.Some? && k.business != business { return false; }
      k := k.(excludes := Without(k.excludes, p));
      if p !in k.includes {
        k := k.(includes := k.includes + [p]);
      }
      collections := collections[c := k];
      if p < |products| {
        products := products[p := products[p].(collections := With(products[p].collections, c))];
      }
      return true;
    }

    method ExcludeProduct(c: Id, p: Id, business: Option<Id>) returns (ok: bool)
      modifies this
      ensures State() == Excluded(old(State()), c, p, business)
      ensures ok == !Refused(old(State()), c, business)
    {
      if c >= |collections| { return false; }
      var k := collections[c];
      if !k.platform && business.Some? && k.business != business { return false; }
      k := k.(includes := Without(k.includes, p));
      if p !in k.excludes {
        k := k.(excludes := k.excludes + [p]);
      }
      collections := collections[c := k];
      if p < |products| {
        products := products[p := products[p].(collections := Without(products[p].collections, c))];
      }
      return true;
    }
  }

  lemma {:induction false} NoChanges(a: seq<Product>, n: nat)
    requires n <= |a|
    ensures Changes(a, a, n) == 0
  {
    if n > 0 { NoChanges(a, n - 1); }
  }

  lemma {:induction false} SameChanges(a: seq<Product>, b: seq<Product>, b': seq<Product>, n: nat)
    requires n <= |a| == |b| == |b'| && b[..n] == b'[..n]
    ensures Changes(a, b, n) == Changes(a, b', n)
  {
    if n > 0 {
      assert b[n - 1] == b[..n][n - 1] && b'[n - 1] == b'[..n][n - 1];
      assert b[..n - 1] == b[..n][..n - 1] && b'[..n - 1] == b'[..n][..n - 1];
      SameChanges(a, b, b', n - 1);
    }
  }

  // ---------- One pair at a time ----------

  lemma AppliedMember(meets: Meets, cat: Catalog, c: Id, p: Id, k: Id)
    requires p < |cat.products|
    ensures Member(Applied(meets, cat, c), p, k) <==>
      if k == c < |cat.collections| && Scanned(cat.collections[c], cat.products[p])
      then Belongs(meets, cat.collections[c], p) else Member(cat, p, k)
  {
  }

  lemma {:induction false} SyncedUpToMember(meets: Meets, cat: Catalog, p: Id, n: nat, k: Id)
    requires p < |cat.products| && n <= |cat.collections|
    ensures k in SyncedUpTo(meets, cat, p, n) <==>
      if k < n && Relevant(cat.collections[k], cat.products[p])
      then Belongs(meets, cat.collections[k], p) else Member(cat, p, k)
  {
    if n > 0 { SyncedUpToMember(meets, cat, p, n - 1, k); }
  }

  lemma SyncedMember(meets: Meets, cat: Catalog, p: Id, q: Id, k: Id)
    requires q < |cat.products|
    ensures Member(Synced(meets, cat, p), q, k) <==>
      if q == p && k < |cat.collections| && Relevant(cat.collections[k], cat.products[q])
      then Belongs(meets, cat.collections[k], q) else Member(cat, q, k)
  {
    if p < |cat.products| { SyncedUpToMember(meets, cat, p, |cat.collections|, k); }
  }

  /**
    Applying the collection and syncing the product leave the pair alike if and only if both loops look at
    it, or neither does, or it was already as it should be. Only an active vendor collection without a
    business is looked at by one loop and not the other.
   */
  lemma LoopsAgreeIff(meets: Meets, cat: Catalog, c: Id, p: Id)
    requires p < |cat.products| && c < |cat.collections|
    ensures var k, product := cat.collections[c], cat.products[p];
      && ((Member(Applied(meets, cat, c), p, c) <==> Member(Synced(meets, cat, p), p, c)) <==>
           (Scanned(k, product) == Relevant(k, product) || Member(cat, p, c) == Belongs(meets, k, p)))
      && (Scanned(k, product) != Relevant(k, product) <==> k.active && !k.platform && k.business.None?)
  {
    AppliedMember(meets, cat, c, p, c);
    SyncedMember(meets, cat, p, p, c);
  }

  /** A vendor collection without a business that lists a product: applying puts it in, and syncing does not. */
  lemma UnownedCollectionDiffers(meets: Meets)
    ensures var cat := Catalog([Product(Some(1), [])], [Collection(true, false, None, true, [], [0], [])]);
      Member(Applied(meets, cat, 0), 0, 0) && !Member(Synced(meets, cat, 0), 0, 0)
  {
    var cat := Catalog([Product(Some(1), [])], [Collection(true, false, None, true, [], [0], [])]);
    AppliedMember(meets, cat, 0, 0, 0);
    SyncedMember(meets, cat, 0, 0, 0);
  }

  // ---------- Runs ----------

  datatype Action =
    | Apply(collection: Id)
    | Sync(product: Id)
    | Include(collection: Id, product: Id, business: Option<Id>)
    | Exclude(collection: Id, product: Id, business: Option<Id>)

  function Step(meets: Meets, cat: Catalog, a: Action): Catalog {
    match a
    case Apply(c) => Applied(meets, cat, c)
    case Sync(p) => Synced(meets, cat, p)
    case Include(c, p, business) => Included(cat, c, p, business)
    case Exclude(c, p, business) => Excluded(cat, c, p, business)
  }

  function Run(meets: Meets, cat: Catalog, actions: seq<Action>): Catalog {
    if actions == [] then cat else Step(meets, Run(meets, cat, actions[..|actions| - 1]), actions[|actions| - 1])
  }

  predicate Automatic(actions: seq<Action>) {
    forall a :: a in actions ==> a.Apply? || a.Sync?
  }

  predicate Covered(actions: seq<Action>, p: Id, c: Id) {
    Apply(c) in actions || Sync(p) in actions
  }

  /** Every active vendor collection has a business. */
  predicate Owned(cat: Catalog) {
    forall k :: k in cat.collections ==> k.active && !k.platform ==> k.business.Some?
  }

  /** What automatic steps keep: the collections, and each product but for its list. */
  predicate SameBut(a: Catalog, b: Catalog) {
    && b.collections == a.collections && |b.products| == |a.products|
    && forall p :: 0 <= p < |a.products| ==> b.products[p].business == a.products[p].business
  }

  lemma {:induction false} AutomaticKeeps(meets: Meets, cat: Catalog, actions: seq<Action>)
    requires Automatic(actions)
    ensures SameBut(cat, Run(meets, cat, actions))
  {
    if actions != [] {
      AutomaticKeeps(meets, cat, actions[..|actions| - 1]);
      assert actions[|actions| - 1] in actions;
    }
  }

  lemma StepMember(meets: Meets, cat: Catalog, a: Action, p: Id, c: Id)
    requires (a.Apply? || a.Sync?) && Owned(cat) && p < |cat.products| && c < |cat.collections|
    ensures Member(Step(meets, cat, a), p, c) <==>
      if (a == Apply(c) || a == Sync(p)) && Relevant(cat.collections[c], cat.products[p])
      then Belongs(meets, cat.collections[c], p) else Member(cat, p, c)
  {
    assert cat.collections[c] in cat.collections;
    match a
    case Apply(k) => AppliedMember(meets, cat, k, p, c);
    case Sync(q) => SyncedMember(meets, cat, q, p, c);
  }

  /**
    Whatever loops ran in whatever order: a product is in a collection in its scope that some loop covered
    exactly when the simple rule says so, and every other pair is as it was.
   */
  lemma {:induction false} CoveredFollowsRule(meets: Meets, cat: Catalog, actions: seq<Action>, p: Id, c: Id)
    requires Owned(cat) && Automatic(actions) && p < |cat.products| && c < |cat.collections|
    ensures Member(Run(meets, cat, actions), p, c) <==>
      if Covered(actions, p, c) && Relevant(cat.collections[c], cat.products[p])
      then Belongs(meets, cat.collections[c], p) else Member(cat, p, c)
  {
    if actions != [] {
      var rest, last := actions[..|actions| - 1], actions[|actions| - 1];
      assert actions == rest + [last];
      CoveredFollowsRule(meets, cat, rest, p, c);
      AutomaticKeeps(meets, cat, rest);
      StepMember(meets, Run(meets, cat, rest), last, p, c);
    }
  }

  /** Applying every collection and syncing every product, each in any order, give the same memberships. */
  lemma ApplyingAndSyncingAgree(meets: Meets, cat: Catalog, applies: seq<Action>, syncs: seq<Action>, p: Id, c: Id)
    requires Owned(cat) && Automatic(applies) && Automatic(syncs)
    requires forall k :: 0 <= k < |cat.collections| ==> Apply(k) in applies
    requires forall q :: 0 <= q < |cat.products| ==> Sync(q) in syncs
    requires p < |cat.products| && c < |cat.collections|
    ensures Member(Run(meets, cat, applies), p, c) <==> Member(Run(meets, cat, syncs), p, c)
  {
    CoveredFollowsRule(meets, cat, applies, p, c);
    CoveredFollowsRule(meets, cat, syncs, p, c);
  }

  /** Every pair in scope is as the simple rule says. */
  ghost predicate Settled(meets: Meets, cat: Catalog) {
    forall p, c :: 0 <= p < |cat.products| && 0 <= c < |cat.collections|
        && Relevant(cat.collections[c], cat.products[p])
      ==> (Member(cat, p, c) <==> Belongs(meets, cat.collections[c], p))
  }

  lemma {:induction false} SettledForever(meets: Meets, cat: Catalog, actions: seq<Action>)
    requires Owned(cat) && Settled(meets, cat)
    ensures Owned(Run(meets, cat, actions)) && Settled(meets, Run(meets, cat, actions))
  {
    if actions != [] {
      var before := Run(meets, cat, actions[..|actions| - 1]);
      SettledForever(meets, cat, actions[..|actions| - 1]);
      SettledStep(meets, before, actions[|actions| - 1]);
    }
  }

  /** No operation, by loop or by hand, takes a pair in scope away from the simple rule. */
  lemma SettledStep(meets: Meets, cat: Catalog, a: Action)
    requires Owned(cat) && Settled(meets, cat)
    ensures Owned(Step(meets, cat, a)) && Settled(meets, Step(meets, cat, a))
  {
    match a
    case Include(c, p, business) => SettledByHand(meets, cat, c, p, business);
    case Exclude(c, p, business) => SettledByHand(meets, cat, c, p, business);
    case _ =>
      forall p, c | 0 <= p < |cat.products| && 0 <= c < |cat.collections|
          && Relevant(cat.collections[c], cat.products[p])
        ensures Member(Step(meets, cat, a), p, c) <==> Belongs(meets, cat.collections[c], p)
      {
        StepMember(meets, cat, a, p, c);
      }
  }

  lemma SettledByHand(meets: Meets, cat: Catalog, c: Id, p: Id, business: Option<Id>)
    requires Owned(cat) && Settled(meets, cat)
    ensures Owned(Included(cat, c, p, business)) && Settled(meets, Included(cat, c, p, business))
    ensures Owned(Excluded(cat, c, p, business)) && Settled(meets, Excluded(cat, c, p, business))
  {
    forall cat' | cat' == Included(cat, c, p, business) || cat' == Excluded(cat, c, p, business)
      ensures Owned(cat') && Settled(meets, cat')
    {
      forall q, k | 0 <= q < |cat'.products| && 0 <= k < |cat'.collections|
          && Relevant(cat'.collections[k], cat'.products[q])
        ensures Member(cat', q, k) <==> Belongs(meets, cat'.collections[k], q)
      {
        assert Member(cat, q, k) <==> Belongs(meets, cat.collections[k], q);
      }
    }
  }

  /** A product put in by hand stays in, and one taken out stays out, whatever the loops do. */
  lemma LastWordStands(meets: Meets, cat: Catalog, c: Id, p: Id, business: Option<Id>, actions: seq<Action>)
    requires Owned(cat) && Automatic(actions) && !Refused(cat, c, business) && p < |cat.products|
    ensures Member(Run(meets, Included(cat, c, p, business), actions), p, c)
    ensures !Member(Run(meets, Excluded(cat, c, p, business), actions), p, c)
  {
    CoveredFollowsRule(meets, Included(cat, c, p, business), actions, p, c);
    CoveredFollowsRule(meets, Excluded(cat, c, p, business), actions, p, c);
  }

  // ---------- Lists stay sets, and repeating changes nothing ----------

  predicate Distinct(ids: seq<Id>) {
    forall i, j :: 0 <= i < j < |ids| ==> ids[i] != ids[j]
  }

  lemma {:induction false} WithoutDistinct(ids: seq<Id>, c: Id)
    requires Distinct(ids)
    ensures Distinct(Without(ids, c))
  {
    if ids != [] {
      WithoutDistinct(ids[..|ids| - 1], c);
      assert ids[|ids| - 1] !in ids[..|ids| - 1];
    }
  }

  lemma {:induction false} SyncedUpToDistinct(meets: Meets, cat: Catalog, p: Id, n: nat)
    requires p < |cat.products| && n <= |cat.collections| && Distinct(cat.products[p].collections)
    ensures Distinct(SyncedUpTo(meets, cat, p, n))
  {
    if n > 0 {
      SyncedUpToDistinct(meets, cat, p, n - 1);
      WithoutDistinct(SyncedUpTo(meets, cat, p, n - 1), n - 1);
    }
  }

  lemma DistinctStep(meets: Meets, cat: Catalog, a: Action)
    requires forall p :: p in cat.products ==> Distinct(p.collections)
    ensures forall p :: p in Step(meets, cat, a).products ==> Distinct(p.collections)
  {
    forall p | 0 <= p < |cat.products| ensures Distinct(Step(meets, cat, a).products[p].collections) {
      assert Distinct(cat.products[p].collections);
      match a
      case Sync(q) => if q < |cat.products| { SyncedUpToDistinct(meets, cat, q, |cat.collections|); }
      case _ => WithoutDistinct(cat.products[p].collections, a.collection);
    }
  }

  /** No run, by loop or by hand, lists a collection twice. */
  lemma {:induction false} NeverListedTwice(meets: Meets, cat: Catalog, actions: seq<Action>)
    requires forall p :: p in cat.products ==> Distinct(p.collections)
    ensures forall p :: p in Run(meets, cat, actions).products ==> Distinct(p.collections)
  {
    if actions != [] {
      NeverListedTwice(meets, cat, actions[..|actions| - 1]);
      DistinctStep(meets, Run(meets, cat, actions[..|actions| - 1]), actions[|actions| - 1]);
    }
  }

  /** A list that already is as it should be is left alone. */
  lemma {:induction false} SyncedUpToSettled(meets: Meets, cat: Catalog, p: Id, n: nat)
    requires p < |cat.products| && n <= |cat.collections|
    requires forall c :: 0 <= c < n && Relevant(cat.collections[c], cat.products[p]) ==>
      (Member(cat, p, c) <==> Belongs(meets, cat.collections[c], p))
    ensures SyncedUpTo(meets, cat, p, n) == cat.products[p].collections
  {
    if n > 0 { SyncedUpToSettled(meets, cat, p, n - 1); }
  }

  /** Repeating a pass changes nothing, not even the order of a list. */
  lemma RepeatingChangesNothing(meets: Meets, cat: Catalog, c: Id, p: Id)
    ensures Applied(meets, Applied(meets, cat, c), c) == Applied(meets, cat, c)
    ensures Synced(meets, Synced(meets, cat, p), p) == Synced(meets, cat, p)
  {
    var once := Synced(meets, cat, p);
    if p < |cat.products| {
      forall k | 0 <= k < |cat.collections| && Relevant(cat.collections[k], cat.products[p])
        ensures Member(once, p, k) <==> Belongs(meets, cat.collections[k], p)
      {
        SyncedMember(meets, cat, p, p, k);
      }
      SyncedUpToSettled(meets, once, p, |cat.collections|);
    }
    assert Applied(meets, Applied(meets, cat, c), c).products == Applied(meets, cat, c).products;
  }

  // ---------- By hand ----------

  /**
    After any loops a covered pair in scope is out if it is excluded, even if it is included too, and else in if it
    is included or the rule matches.
   */
  lemma ExclusionWins(meets: Meets, cat: Catalog, actions: seq<Action>, p: Id, c: Id)
    requires Automatic(actions) && Owned(cat) && p < |cat.products| && c < |cat.collections|
    requires Covered(actions, p, c) && Relevant(cat.collections[c], cat.products[p])
    ensures var k := cat.collections[c];
      && (p in k.excludes ==> !Member(Run(meets, cat, actions), p, c))
      && (p !in k.excludes && p in k.includes ==> Member(Run(meets, cat, actions), p, c))
      && (p !in k.excludes && p !in k.includes ==>
            (Member(Run(meets, cat, actions), p, c) <==> Matches(meets, k.matchAll, k.conditions, p)))
  {
    CoveredFollowsRule(meets, cat, actions, p, c);
  }

  /**
    Including or excluding by hand changes nothing if and only if the collection does not exist, or is neither the
    platform's nor the caller's, a caller without a business being the platform.
   */
  lemma VendorsKeepApart(cat: Catalog, c: Id, p: Id, business: Option<Id>)
    ensures var mine := c < |cat.collections|
        && (cat.collections[c].platform || business == None || cat.collections[c].business == business);
      && (!mine ==> Included(cat, c, p, business) == cat && Excluded(cat, c, p, business) == cat)
      && (mine ==>
            var i, e := Included(cat, c, p, business), Excluded(cat, c, p, business);
            && |i.collections| == |e.collections| == |cat.collections|
            && p in i.collections[c].includes && p !in i.collections[c].excludes
            && p in e.collections[c].excludes && p !in e.collections[c].includes)
  {
  }
}
