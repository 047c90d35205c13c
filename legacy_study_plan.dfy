/**
 * The study plan of the earlier version: the same construction over the
 * earlier catalogue's enumeration, which lists the kana in the same order.
 */
module LegacyStudyPlan {
  import opened KanaCatalog
  import opened Shuffle
  import StudyPlan

  /** Collects all kana in enumeration order into a buffer and shuffles it. */
  method CreateFullStudyPlan(pick: nat -> nat) returns (plan: seq<Kana>)
    ensures plan == Shuffled(AllKana, pick)
    ensures |plan| == KanaCount
    ensures multiset(plan) == multiset(AllKana)
    ensures forall k :: k in plan
    ensures Distinct(plan)
  {
    var allKana := new Kana[KanaCount](i requires 0 <= i < KanaCount => FromOrdinal(i));
    assert allKana[..] == AllKana;
    ShuffleInPlace(allKana, pick);
    plan := allKana[..];
    StudyPlan.ReorderingHoldsEveryKanaOnce(plan);
  }
}
