/** The analysis run the page performs for a selected headline: classify it,
    simulate the risk of a portfolio under its topic and recommend an action.
    The sentiment score comes from an external text-analysis library and is
    taken here as an input. */
module Analysis {
  import opened Text
  import opened TopicClassifier
  import opened RiskSimulator
  import opened Recommender
  import opened SampleHeadlines

  datatype AnalysisResult = AnalysisResult(
    topic: string,
    sentiment: real,
    riskScore: real,
    breakdown: seq<Entry>,
    recommendation: string)

  /** Every topic the classifier can name has a row in the impact matrix, and
      the fallback topic has none. */
  lemma TopicsHaveImpactRows()
    ensures forall t :: t in Topics(MacroKeywords) ==> t in MacroImpactMatrix
    ensures UnknownTopic !in MacroImpactMatrix
  {
  }

  /** A headline's topic reaches the degenerate case of the simulator exactly
      when the classifier found no keyword. */
  lemma ClassifiedTopicHasRow(headline: string)
    ensures ClassifyMacroTopic(headline) in MacroImpactMatrix <==> ClassifyMacroTopic(headline) != UnknownTopic
  {
    TopicsHaveImpactRows();
  }

  /** A headline without any keyword scores 0 whatever the portfolio and
      always ends in the neutral message. */
  lemma UnknownTopicIsNeutral(headline: string, p: Portfolio)
    requires ClassifyMacroTopic(headline) == UnknownTopic
    ensures RiskScore(p, ClassifyMacroTopic(headline)) == 0.0
    ensures Breakdown(p, ClassifyMacroTopic(headline)) == [Note(UnknownTopicNote)]
    ensures GetRecommendation(RiskScore(p, ClassifyMacroTopic(headline)), ClassifyMacroTopic(headline))
      == NeutralMessage
  {
    TopicsHaveImpactRows();
  }

  /** Lines 87-90 of the page: the pipeline from a headline to a result. */
  method RunAnalysis(headline: string, portfolio: Portfolio, sentiment: real) returns (result: AnalysisResult)
    ensures result.topic == ClassifyMacroTopic(headline)
    ensures result.sentiment == sentiment
    ensures result.riskScore == RiskScore(portfolio, result.topic)
    ensures result.breakdown == Breakdown(portfolio, result.topic)
    ensures result.recommendation == GetRecommendation(result.riskScore, result.topic)
    ensures result.topic == UnknownTopic ==>
      result.riskScore == 0.0 && result.recommendation == NeutralMessage
    ensures result.topic != UnknownTopic ==> |result.breakdown| == |portfolio|
  {
    var topic := ClassifyMacroTopic(headline);
    var riskScore, breakdown := SimulateRisk(portfolio, topic);
    var recommendation := GetRecommendation(riskScore, topic);
    TopicsHaveImpactRows();
    result := AnalysisResult(topic, sentiment, riskScore, breakdown, recommendation);
  }

  /** Classifying the first sample headline and scoring the default
      portfolio under its topic recommends that the risk is decreasing. */
  lemma FederalReserveHeadlineAdvice()
    ensures GetRecommendation(RiskScore(DefaultPortfolio, ClassifyMacroTopic(MockHeadlines[0])),
      ClassifyMacroTopic(MockHeadlines[0])) == DecreasingMessage("interest rates")
  {
    FederalReserveTopic();
    InterestRatesOnDefaultPortfolio();
  }

  /** Classifying the last sample headline and scoring the default portfolio
      under its topic recommends that the risk is increasing. */
  lemma JobMarketHeadlineAdvice()
    ensures GetRecommendation(RiskScore(DefaultPortfolio, ClassifyMacroTopic(MockHeadlines[4])),
      ClassifyMacroTopic(MockHeadlines[4])) == IncreasingMessage("job market")
  {
    JobMarketTopic();
    JobMarketOnDefaultPortfolio();
  }

  /** "software" holds none of the interest-rate keywords. */
  lemma SoftwareLacksInterestRateKeywords()
    ensures !SomeKeywordOccurs(MacroKeywords[0].1, "software")
  {
    AbsentCharExcludes("rate hike", "software", 5);
    AbsentCharExcludes("federal reserve", "software", 2);
    AbsentCharExcludes("interest rate", "software", 0);
  }

  /** "software" holds none of the inflation keywords. */
  lemma SoftwareLacksInflationKeywords()
    ensures !SomeKeywordOccurs(MacroKeywords[1].1, "software")
  {
    AbsentCharExcludes("inflation", "software", 0);
    AbsentCharExcludes("cpi", "software", 0);
    AbsentCharExcludes("consumer price", "software", 0);
  }

  /** Matching is substring containment, not word matching: "software"
      contains "war", and no interest-rate or inflation keyword, so it is a
      geopolitical headline. */
  lemma SoftwareIsGeopolitical()
    ensures ClassifyMacroTopic("Software") == "geopolitical tension"
  {
    assert ToLower("Software") == "software";
    SoftwareLacksInterestRateKeywords();
    SoftwareLacksInflationKeywords();
    assert OccursAt("war", "software", 4);
    assert "war" in MacroKeywords[2].1;
    ClassifyMacroTopicIsFirstMatch("Software", 2);
  }
}
