# MaSRA analysis core in Dafny

A model of the analysis pipeline of MaSRA Pro ("Macro Sentiment Risk
Adjuster"), `masra_app.py`. A financial headline is classified into a macro
topic by keyword search over an ordered keyword table. A portfolio of
sector-weighted assets is then scored under that topic through a static
topic-to-sector impact matrix, with one breakdown line per asset. Finally the
score is mapped to one of three recommendations.

Modules, one per component of the source file:

- `Text` (`text.dfy`): ASCII lower-casing (`str.lower`) and substring search
  (`keyword in text`), with the executable search proved equal to "occurs at
  some position".
- `TopicClassifier` (`classifier.dfy`): `macro_keywords` as a sequence of
  (topic, keywords) pairs in insertion order. `classify_macro_topic` is a
  first-match search over it, with "unknown" as the fallback.
- `RiskSimulator` (`risk.dfy`): `macro_impact_matrix` and `default_portfolio`.
  `simulate_risk` is a method that returns the note for a topic without a
  row and otherwise runs a loop over the topic's row, accumulating the score
  and appending the breakdown. Both are proved against the specification
  functions `Impact`, `RiskScore` and `Breakdown`.
- `Numbers` (`numbers.dfy`): the absolute value of a real, shared by the
  simulator's bounds and the recommender's threshold.
- `Recommender` (`recommender.dfy`): `get_recommendation`, with its exact
  messages.
- `SampleHeadlines` (`headlines.dfy`): `mock_headlines`, with the topic each
  of the five sample headlines is classified under.
- `Analysis` (`analysis.dfy`): the sequence of calls the page makes for a
  selected headline, and the lemmas that connect the components.

Weights and scores are exact `real`s. A breakdown line is a record (ticker,
sector, contribution, whether the `+` prefix is shown). The note for an
unknown topic is the one string line the source returns.

## Model

| member | source | states |
|---|---|---|
| Text.ToLower | masra_app.py:28 | lower-casing keeps the length and lowers each letter A-Z, leaving every other character as it is |
| Text.Contains | masra_app.py:28 | the left-to-right substring scan is true exactly when the pattern occurs at some position of the text; the empty pattern occurs everywhere |
| TopicClassifier.AnyKeywordIn | masra_app.py:28 | the `any(...)` test is true exactly when some keyword of the list is a substring of the text |
| TopicClassifier.FirstMatch | masra_app.py:27-29 | the search stops at a row with a matching keyword, and no earlier row has one; it runs off the end only when no row matches |
| TopicClassifier.ClassifyMacroTopic | masra_app.py:18-30 | the result is one of the five table topics or "unknown", and it is "unknown" exactly when no keyword of any topic occurs in the lower-cased headline |
| TopicClassifier.ClassifyWithPriority | masra_app.py:26-30 | over any ordered table, the result is the topic of a matching row with no matching row before it, or the fallback when no row matches |
| TopicClassifier.ClassifyMacroTopicIsFirstMatch | masra_app.py:18-29 | a headline gets topic i exactly when topic i has a keyword in it and no earlier topic has one |
| TopicClassifier.FederalReserveIsInterestRates | masra_app.py:19-29 | any headline containing "federal reserve" in any case is "interest rates", whatever else it contains |
| TopicClassifier.ClassifyIgnoresCase | masra_app.py:28 | ASCII upper-casing or lower-casing a headline does not change its topic |
| RiskSimulator.Effect | masra_app.py:62 | a sector absent from the topic's row has effect 0; a present one has the row's entry |
| RiskSimulator.SimulateRow | masra_app.py:57-66 | the loop over a row returns the fold of weight times effect over the portfolio, and one line per asset in portfolio order, line i naming asset i's ticker and sector with contribution weight times effect and the `+` prefix exactly when the contribution is at least 0 |
| RiskSimulator.SimulateRisk | masra_app.py:53-66 | a topic without a matrix row gives score 0 and the single note "Unknown macro topic."; otherwise one line per asset in portfolio order, line i naming asset i's ticker and sector with contribution weight times effect and the `+` prefix exactly when the contribution is at least 0, and the score is the fold of those contributions |
| RiskSimulator.MatrixEffectsAreUnit | masra_app.py:37-43 | every effect in the impact matrix is -1, 0 or 1 |
| RiskSimulator.BreakdownSumsToScore | masra_app.py:57-65 | for every portfolio and topic, the contributions shown in the breakdown add up to the returned score |
| RiskSimulator.ContributionBounded | masra_app.py:62-63 | with effects in {-1, 0, 1}, an asset's contribution is at most its weight in magnitude |
| RiskSimulator.ScoreBounded | masra_app.py:57-64 | the score is at most the sum of the absolute weights in magnitude, whatever the weights add up to |
| RiskSimulator.ImpactScales | masra_app.py:57-64 | under any row, multiplying every weight by c multiplies the accumulated impact by c |
| RiskSimulator.ScoreScalesWithWeights | masra_app.py:57-64 | scaling every weight by c scales the score by c: weights are used as given and never normalised |
| RiskSimulator.InterestRatesOnDefaultPortfolio | masra_app.py:38-51 | the default portfolio scores -0.15 under "interest rates" |
| RiskSimulator.JobMarketOnDefaultPortfolio | masra_app.py:42-51 | the default portfolio scores 0.20 under "job market" |
| Recommender.GetRecommendation | masra_app.py:69-75 | a score strictly between -0.1 and 0.1 gives the neutral message; at least 0.1 gives the "increasing" message naming the topic; at most -0.1 gives the "decreasing" message naming the topic |
| Recommender.MessagesDiffer | masra_app.py:71-75 | the three messages differ for every topic |
| Recommender.RecommendationBranches | masra_app.py:69-75 | each message is returned if and only if the score lies in its band, so exactly one branch applies |
| Recommender.MessagesNameTopic | masra_app.py:73-75 | the increasing and decreasing messages contain the topic text |
| Recommender.MessagesDetermineTopic | masra_app.py:73-75 | two different topics never give the same increasing or decreasing message |
| Recommender.RecommendationBoundaries | masra_app.py:70-75 | 0.099999 is neutral, 0.1 and 0.10001 are increasing, -0.1 and -0.10001 are decreasing |
| Analysis.TopicsHaveImpactRows | masra_app.py:18-43 | every topic of the keyword table has a row in the impact matrix, and "unknown" has none |
| Analysis.ClassifiedTopicHasRow | masra_app.py:26-55 | a classified topic reaches the simulator's degenerate case exactly when it is "unknown" |
| Analysis.UnknownTopicIsNeutral | masra_app.py:53-71 | a headline with no keyword scores 0 for every portfolio, gets the note as its breakdown and always ends in the neutral message |
| Analysis.RunAnalysis | masra_app.py:87-90 | the result carries the headline's topic, the given sentiment, the simulator's score and breakdown and the matching recommendation; an "unknown" topic gives score 0 and the neutral message, a known one one breakdown line per asset |
| SampleHeadlines.FederalReserveTopic | masra_app.py:10-30 | the first sample headline, "Federal Reserve signals further interest rate hikes", is classified "interest rates" |
| SampleHeadlines.InflationTopic | masra_app.py:11-30 | the second sample headline is classified "inflation", as it holds "inflation" and no interest-rate keyword |
| SampleHeadlines.TensionsTopic | masra_app.py:12-30 | the third sample headline is classified "geopolitical tension", as it holds "tensions" and no interest-rate or inflation keyword |
| SampleHeadlines.OilTopic | masra_app.py:13-30 | the fourth sample headline is classified "oil prices", as it holds "oil" and no keyword of the three earlier topics |
| SampleHeadlines.JobMarketTopic | masra_app.py:14-30 | the fifth sample headline, "US job growth slows sharply, unemployment ticks up", is classified "job market", as it holds "unemployment" and no keyword of the four earlier topics |
| Analysis.FederalReserveHeadlineAdvice | masra_app.py:10-75 | analysing the first sample headline on the default portfolio ends in the "decreasing" message naming "interest rates" |
| Analysis.JobMarketHeadlineAdvice | masra_app.py:14-75 | analysing the fifth sample headline on the default portfolio ends in the "increasing" message naming "job market" |
| Analysis.SoftwareIsGeopolitical | masra_app.py:18-30 | "Software" is classified "geopolitical tension" because it contains "war" and no interest-rate or inflation keyword: matching is substring containment, not word matching |

## Left out

- The Streamlit page (masra_app.py:2, 6, 78-112): layout, widgets and display. Only the sequence of calls at lines 87-90 is modelled, as `RunAnalysis`.
- `analyze_sentiment` (masra_app.py:33-34) delegates to the TextBlob library, whose behaviour is not visible here. `RunAnalysis` takes its result as a parameter and passes it through unchanged.
- Floating point: weights and scores are exact reals. IEEE rounding (the default portfolio's interest-rate score need not be exactly -0.15 in binary floating point) and signed zero (a 0 weight with effect -1 gives -0.0, which takes the `+` branch) are not modelled.
- The `:.2f` text of a breakdown line and of the on-screen scores (masra_app.py:65, 98, 102): a breakdown line is a record holding the contribution and the sign-prefix decision, not the formatted string.
- `Text.ToLower`: lowers ASCII letters only. Python's `str.lower` also maps non-ASCII characters, some of them to ASCII letters (the Kelvin sign becomes `k`), which could make such a headline match a keyword.
