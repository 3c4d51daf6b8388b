/** The recommender: a three-way threshold on the risk score at 0.1 in
    magnitude, naming the topic in the two non-neutral messages. */
module Recommender {
  import opened Text
  import opened Numbers

  const NeutralMessage: string := "\U{1F7E2} Risk neutral. No urgent action required."

  function IncreasingMessage(topic: string): string
  {
    "\U{1F534} Risk increasing due to " + topic + ". Consider hedging with Gold or Bonds."
  }

  function DecreasingMessage(topic: string): string
  {
    "\U{1F7E2} Risk decreasing due to " + topic + ". Potential opportunity to expand in Tech or Financials."
  }

  /** `get_recommendation`: neutral below 0.1 in magnitude, otherwise the
      direction of the score decides. */
  function GetRecommendation(riskScore: real, topic: string): (msg: string)
    ensures -0.1 < riskScore < 0.1 ==> msg == NeutralMessage
    ensures riskScore >= 0.1 ==> msg == IncreasingMessage(topic)
    ensures riskScore <= -0.1 ==> msg == DecreasingMessage(topic)
  {
    if Abs(riskScore) < 0.1 then NeutralMessage
    else if riskScore > 0.0 then IncreasingMessage(topic)
    else DecreasingMessage(topic)
  }

  /** The three messages differ from each other for every topic, so the
      message tells which branch was taken. */
  lemma MessagesDiffer(topic: string)
    ensures NeutralMessage != IncreasingMessage(topic)
    ensures NeutralMessage != DecreasingMessage(topic)
    ensures IncreasingMessage(topic) != DecreasingMessage(topic)
  {
    assert NeutralMessage[0] != IncreasingMessage(topic)[0];
    assert NeutralMessage[7] != DecreasingMessage(topic)[7];
    assert IncreasingMessage(topic)[0] != DecreasingMessage(topic)[0];
  }

  /** Exactly one branch: the message is the neutral one if and only if the
      score is below 0.1 in magnitude, the increasing one if and only if the
      score is at least 0.1, the decreasing one if and only if it is at most
      -0.1. */
  lemma RecommendationBranches(riskScore: real, topic: string)
    ensures GetRecommendation(riskScore, topic) == NeutralMessage <==> -0.1 < riskScore < 0.1
    ensures GetRecommendation(riskScore, topic) == IncreasingMessage(topic) <==> riskScore >= 0.1
    ensures GetRecommendation(riskScore, topic) == DecreasingMessage(topic) <==> riskScore <= -0.1
  {
    MessagesDiffer(topic);
  }

  /** The non-neutral messages name the topic. */
  lemma MessagesNameTopic(topic: string)
    ensures Occurs(topic, IncreasingMessage(topic))
    ensures Occurs(topic, DecreasingMessage(topic))
  {
    assert OccursAt(topic, topic, 0);
    OccursInside("\U{1F534} Risk increasing due to ", topic, ". Consider hedging with Gold or Bonds.", topic);
    OccursInside("\U{1F7E2} Risk decreasing due to ", topic, ". Potential opportunity to expand in Tech or Financials.", topic);
  }

  /** Different topics give different non-neutral messages. */
  lemma {:induction false} MessagesDetermineTopic(t1: string, t2: string)
    ensures IncreasingMessage(t1) == IncreasingMessage(t2) ==> t1 == t2
    ensures DecreasingMessage(t1) == DecreasingMessage(t2) ==> t1 == t2
  {
    var pi := "\U{1F534} Risk increasing due to ";
    var pd := "\U{1F7E2} Risk decreasing due to ";
    if IncreasingMessage(t1) == IncreasingMessage(t2) {
      var m := IncreasingMessage(t1);
      assert |t1| == |t2|;
      assert m[|pi|..|pi| + |t1|] == t1;
      assert IncreasingMessage(t2)[|pi|..|pi| + |t2|] == t2;
    }
    if DecreasingMessage(t1) == DecreasingMessage(t2) {
      var m := DecreasingMessage(t1);
      assert |t1| == |t2|;
      assert m[|pd|..|pd| + |t1|] == t1;
      assert DecreasingMessage(t2)[|pd|..|pd| + |t2|] == t2;
    }
  }

  /** The boundary scores that separate the branches. */
  lemma RecommendationBoundaries(topic: string)
    ensures GetRecommendation(0.099999, topic) == NeutralMessage
    ensures GetRecommendation(0.1, topic) == IncreasingMessage(topic)
    ensures GetRecommendation(0.10001, topic) == IncreasingMessage(topic)
    ensures GetRecommendation(-0.1, topic) == DecreasingMessage(topic)
    ensures GetRecommendation(-0.10001, topic) == DecreasingMessage(topic)
  {
  }
}
