/**
 * Study plans of the current version: every kana, in the enumeration order,
 * shuffled in place.
 */
module StudyPlan {
  import opened KanaCatalog
  import opened Shuffle

  /**
   * Collects all kana in enumeration order into a buffer and shuffles it;
   * the random source is the index oracle `pick`.
   */
  method CreateStudyPlan(pick: nat -> nat) returns (plan: seq<Kana>)
    ensures plan == Shuffled(AllKana, pick)
    ensures |plan| == KanaCount
    ensures multiset(plan) == multiset(AllKana)
    ensures forall k :: k in plan
    ensures Distinct(plan)
  {
    var kanas := new Kana[KanaCount](i requires 0 <= i < KanaCount => FromOrdinal(i));
    assert kanas[..] == AllKana;
    ShuffleInPlace(kanas, pick);
    plan := kanas[..];
    ReorderingHoldsEveryKanaOnce(plan);
  }

  /** The fixed one-kana plan. */
  function CreateSmallStudyPlan(): (plan: seq<Kana>)
    ensures |plan| == 1 && plan[0] == A
  {
    [A]
  }

  /** Any reordering of all kana holds every kana exactly once. */
  lemma ReorderingHoldsEveryKanaOnce(plan: seq<Kana>)
    requires multiset(plan) == multiset(AllKana)
    ensures |plan| == KanaCount
    ensures forall k :: k in plan
    ensures Distinct(plan)
  {
    AllKanaEnumerates();
    assert |plan| == |multiset(plan)| == |multiset(AllKana)| == |AllKana|;
    forall k ensures k in plan {
      assert k in AllKana;
      assert k in multiset(plan);
    }
    PermutationKeepsDistinct(AllKana, plan);
  }
}
