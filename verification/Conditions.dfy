/** Automatic rules: conditions a product may meet, matched all or any. */
module Conditions {
  import opened Prelude

  datatype Condition = Condition(field: string, operator: string, value: string)

  /** Whether a product, by id, meets a condition; conditions do not read what the rules themselves store. */
  type Meets = (Id, Condition) -> bool

  /** A rule without conditions matches nothing. */
  predicate Matches(meets: Meets, all: bool, conditions: seq<Condition>, p: Id) {
    && conditions != []
    && (if all then forall k :: k in conditions ==> meets(p, k) else exists k :: k in conditions && meets(p, k))
  }

  /** One condition matches alike; every further one narrows a rule that wants all, and widens one that wants any. */
  lemma ConditionsNarrowOrWiden(meets: Meets, conditions: seq<Condition>, more: Condition, p: Id)
    ensures !Matches(meets, true, [], p) && !Matches(meets, false, [], p)
    ensures Matches(meets, true, [more], p) == Matches(meets, false, [more], p) == meets(p, more)
    ensures conditions != [] ==>
      && (Matches(meets, true, conditions + [more], p) <==> Matches(meets, true, conditions, p) && meets(p, more))
      && (Matches(meets, false, conditions + [more], p) <==> Matches(meets, false, conditions, p) || meets(p, more))
  {
    assert more in [more] && more in conditions + [more];
    assert forall k :: k in conditions ==> k in conditions + [more];
  }
}
