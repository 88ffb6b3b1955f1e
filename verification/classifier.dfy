/**
  The emotion classifier: a three-way threshold rule on a sentiment
  polarity. Polarity is a `real`, since the classifier only compares it
  against the two cutoffs.
 */
module Classifier {

  /** Above this polarity a headline reads as optimistic. */
  const PositiveCutoff: real := 0.1

  /** Below this polarity a headline reads as fearful or angry. */
  const NegativeCutoff: real := -0.1

  /** The three labels a headline can receive. */
  datatype Emotion = FearAnger | Neutral | Optimism {

    /**
      The text written in a record's `emotion` field; each string belongs
      to exactly one label.
     */
    function Label(): (s: string)
      ensures s == "Optimism" <==> this == Optimism
      ensures s == "Fear/Anger" <==> this == FearAnger
      ensures s == "Neutral" <==> this == Neutral
    {
      match this
      case Optimism => "Optimism"
      case FearAnger => "Fear/Anger"
      case Neutral => "Neutral"
    }

    /** Position in the order Fear/Anger < Neutral < Optimism. */
    function Rank(): (k: nat)
      ensures k <= 2
    {
      match this
      case FearAnger => 0
      case Neutral => 1
      case Optimism => 2
    }
  }

  /**
    The number of cutoffs polarity `p` reaches: the negative one
    inclusively, the positive one strictly.
   */
  function CutoffsReached(p: real): (n: nat)
    ensures n <= 2
    ensures n == 0 <==> p < NegativeCutoff
    ensures n == 2 <==> p > PositiveCutoff
  {
    (if p >= NegativeCutoff then 1 else 0) + (if p > PositiveCutoff then 1 else 0)
  }

  /**
    Labels a polarity. Both cutoffs are exclusive: a polarity exactly on
    a cutoff is Neutral.
   */
  function Classify(p: real): (e: Emotion)
    ensures e == Optimism <==> p > PositiveCutoff
    ensures e == FearAnger <==> p < NegativeCutoff
    ensures e == Neutral <==> NegativeCutoff <= p <= PositiveCutoff
  {
    if p > PositiveCutoff then Optimism
    else if p < NegativeCutoff then FearAnger
    else Neutral
  }

  /** The cutoffs are ordered, so no polarity passes both strict tests. */
  lemma StrictTestsExclusive(p: real)
    ensures NegativeCutoff < PositiveCutoff
    ensures !(p > PositiveCutoff && p < NegativeCutoff)
  {
  }

  /** Both cutoff values themselves are Neutral. */
  lemma BoundariesAreNeutral()
    ensures Classify(PositiveCutoff) == Neutral
    ensures Classify(NegativeCutoff) == Neutral
    ensures Classify(0.0) == Neutral
  {
  }

  /** A higher polarity never receives a lower label. */
  lemma ClassifyMonotone(p: real, q: real)
    requires p <= q
    ensures Classify(p).Rank() <= Classify(q).Rank()
  {
  }

  /**
    An independent reading of the rule: the rank of the label counts the
    cutoffs the polarity has reached (the negative one inclusively, the
    positive one strictly).
   */
  lemma RankCountsCutoffs(p: real)
    ensures Classify(p).Rank() == CutoffsReached(p)
  {
  }

  /** The string written in the `emotion` field, for every polarity. */
  lemma LabelOfPolarity(p: real)
    ensures Classify(p).Label() == "Optimism" <==> p > PositiveCutoff
    ensures Classify(p).Label() == "Fear/Anger" <==> p < NegativeCutoff
    ensures Classify(p).Label() == "Neutral" <==> NegativeCutoff <= p <= PositiveCutoff
  {
  }

  /** Distinct labels are written as distinct strings. */
  lemma LabelInjective(a: Emotion, b: Emotion)
    ensures a.Label() == b.Label() <==> a == b
  {
  }

  /** Every emotion string written is one of the three label values. */
  lemma LabelsAreTheThree(e: Emotion)
    ensures e.Label() in {"Optimism", "Fear/Anger", "Neutral"}
  {
  }
}
