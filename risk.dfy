/** The risk simulator: the static impact matrix, the default portfolio and
    `simulate_risk`, which folds the portfolio into a weighted risk score and
    a per-asset breakdown. Weights and scores are exact reals. */
module RiskSimulator {
  import opened Numbers

  /** One holding of a portfolio. The weight is not checked or normalised. */
  datatype Asset = Asset(ticker: string, sector: string, weight: real)

  type Portfolio = seq<Asset>

  /** One line of the breakdown: an asset's line, with the sign prefix `+`
      shown when the contribution is not negative, or the note returned for
      a topic without a row in the matrix. */
  datatype Entry =
    | AssetLine(ticker: string, sector: string, contribution: real, plusSign: bool)
    | Note(text: string)

  const UnknownTopicNote: string := "Unknown macro topic."

  /** `macro_impact_matrix`: topic -> sector -> directional effect. */
  const MacroImpactMatrix: map<string, map<string, int>> := map[
    "interest rates" := map["Tech" := -1, "Financials" := 1, "Energy" := 0, "Bonds" := -1, "Gold" := 1],
    "inflation" := map["Tech" := -1, "Financials" := 0, "Energy" := 1, "Bonds" := -1, "Gold" := 1],
    "geopolitical tension" := map["Tech" := -1, "Financials" := -1, "Energy" := 1, "Bonds" := 1, "Gold" := 1],
    "oil prices" := map["Tech" := 0, "Financials" := 0, "Energy" := 1, "Bonds" := -1, "Gold" := 1],
    "job market" := map["Tech" := 1, "Financials" := 1, "Energy" := 0, "Bonds" := -1, "Gold" := 0]
  ]

  /** `default_portfolio`. */
  const DefaultPortfolio: Portfolio := [
    Asset("AAPL", "Tech", 0.25),
    Asset("JPM", "Financials", 0.20),
    Asset("XLE", "Energy", 0.15),
    Asset("TLT", "Bonds", 0.25),
    Asset("GLD", "Gold", 0.15)
  ]

  /** Every effect of a row lies in {-1, 0, 1}. */
  ghost predicate UnitEffects(row: map<string, int>)
  {
    forall sector :: sector in row ==> -1 <= row[sector] <= 1
  }

  /** `row.get(sector, 0)`: a sector the row does not name has no effect. */
  function Effect(row: map<string, int>, sector: string): (e: int)
    ensures sector !in row ==> e == 0
    ensures sector in row ==> e == row[sector]
  {
    if sector in row then row[sector] else 0
  }

  /** `weight * effect` for one asset. */
  function Contribution(row: map<string, int>, asset: Asset): real
  {
    asset.weight * Effect(row, asset.sector) as real
  }

  /** The breakdown line of one asset. */
  function LineFor(row: map<string, int>, asset: Asset): (e: Entry)
    ensures e.AssetLine? && e.ticker == asset.ticker && e.sector == asset.sector
    ensures e.contribution == Contribution(row, asset)
    ensures e.plusSign <==> e.contribution >= 0.0
  {
    var c := Contribution(row, asset);
    AssetLine(asset.ticker, asset.sector, c, c >= 0.0)
  }

  /** The accumulated `impact`: the left fold of the contributions. */
  function Impact(row: map<string, int>, p: Portfolio): real
  {
    if p == [] then 0.0 else Impact(row, p[..|p| - 1]) + Contribution(row, p[|p| - 1])
  }

  /** The score `simulate_risk` returns for a portfolio and a topic. */
  function RiskScore(p: Portfolio, topic: string): real
  {
    if topic in MacroImpactMatrix then Impact(MacroImpactMatrix[topic], p) else 0.0
  }

  /** The breakdown `simulate_risk` returns for a portfolio and a topic. */
  function Breakdown(p: Portfolio, topic: string): seq<Entry>
  {
    if topic in MacroImpactMatrix then
      seq(|p|, i requires 0 <= i < |p| => LineFor(MacroImpactMatrix[topic], p[i]))
    else
      [Note(UnknownTopicNote)]
  }

  /** The loop of `simulate_risk` over the row of a known topic: one pass
      over the portfolio accumulating the score and appending one breakdown
      line per asset, in portfolio order. */
  method SimulateRow(row: map<string, int>, portfolio: Portfolio) returns (impact: real, breakdown: seq<Entry>)
    ensures impact == Impact(row, portfolio)
    ensures |breakdown| == |portfolio|
    ensures forall i :: 0 <= i < |portfolio| ==> breakdown[i] == LineFor(row, portfolio[i])
  {
    impact := 0.0;
    breakdown := [];
    var n := 0;
    while n < |portfolio|
      invariant 0 <= n <= |portfolio|
      invariant impact == Impact(row, portfolio[..n])
      invariant |breakdown| == n
      invariant forall i :: 0 <= i < n ==> breakdown[i] == LineFor(row, portfolio[i])
    {
      var asset := portfolio[n];
      var effect := Effect(row, asset.sector);
      var score := asset.weight * effect as real;
      impact := impact + score;
      breakdown := breakdown + [AssetLine(asset.ticker, asset.sector, score, score >= 0.0)];
      assert portfolio[..n + 1][..n] == portfolio[..n];
      n := n + 1;
    }
    assert portfolio[..n] == portfolio;
  }

  /** `simulate_risk`: a topic without a row gives 0 and the note; any other
      topic runs the loop over its row. */
  method SimulateRisk(portfolio: Portfolio, topic: string) returns (impact: real, breakdown: seq<Entry>)
    ensures impact == RiskScore(portfolio, topic)
    ensures breakdown == Breakdown(portfolio, topic)
    ensures topic !in MacroImpactMatrix ==> impact == 0.0 && breakdown == [Note(UnknownTopicNote)]
    ensures topic in MacroImpactMatrix ==>
      |breakdown| == |portfolio| &&
      forall i :: 0 <= i < |portfolio| ==> breakdown[i] == LineFor(MacroImpactMatrix[topic], portfolio[i])
  {
    if topic !in MacroImpactMatrix {
      return 0.0, [Note(UnknownTopicNote)];
    }
    impact, breakdown := SimulateRow(MacroImpactMatrix[topic], portfolio);
  }

  /** The contribution a breakdown line carries; the note carries none. */
  function LineContribution(e: Entry): real
  {
    if e.AssetLine? then e.contribution else 0.0
  }

  /** The total of the contributions shown in a breakdown, read front to back. */
  function SumOfLines(es: seq<Entry>): real
  {
    if es == [] then 0.0 else LineContribution(es[0]) + SumOfLines(es[1..])
  }

  /** The sum of the absolute weights of a portfolio. */
  function TotalAbsWeight(p: Portfolio): (t: real)
    ensures t >= 0.0
  {
    if p == [] then 0.0 else Abs(p[0].weight) + TotalAbsWeight(p[1..])
  }

  /** A portfolio with every weight multiplied by `c`. */
  function Scaled(p: Portfolio, c: real): (q: Portfolio)
    ensures |q| == |p|
    ensures forall i {:trigger q[i]} :: 0 <= i < |p| ==>
      q[i] == Asset(p[i].ticker, p[i].sector, c * p[i].weight)
  {
    seq(|p|, i requires 0 <= i < |p| => Asset(p[i].ticker, p[i].sector, c * p[i].weight))
  }

  /** Every effect of the matrix is -1, 0 or 1. */
  lemma MatrixEffectsAreUnit()
    ensures forall topic :: topic in MacroImpactMatrix ==> UnitEffects(MacroImpactMatrix[topic])
  {
  }

  /** The accumulated impact can be peeled from the front as well. */
  lemma {:induction false} ImpactCons(row: map<string, int>, a: Asset, p: Portfolio)
    ensures Impact(row, [a] + p) == Contribution(row, a) + Impact(row, p)
    decreases |p|
  {
    if p != [] {
      var q := p[..|p| - 1];
      assert ([a] + p)[..|p|] == [a] + q;
      assert ([a] + p)[|p|] == p[|p| - 1];
      ImpactCons(row, a, q);
    }
  }

  /** The score is the sum of the contributions listed in the breakdown, for
      a known topic (one line per asset) and for an unknown one (0 and the
      note). */
  lemma {:induction false} BreakdownSumsToScore(p: Portfolio, topic: string)
    ensures SumOfLines(Breakdown(p, topic)) == RiskScore(p, topic)
    decreases |p|
  {
    if topic in MacroImpactMatrix && p != [] {
      var row := MacroImpactMatrix[topic];
      assert Breakdown(p, topic)[1..] == Breakdown(p[1..], topic);
      BreakdownSumsToScore(p[1..], topic);
      ImpactCons(row, p[0], p[1..]);
      assert [p[0]] + p[1..] == p;
    }
  }

  /** With effects in {-1, 0, 1}, an asset moves the score by at most the
      magnitude of its weight. */
  lemma ContributionBounded(row: map<string, int>, a: Asset)
    requires UnitEffects(row)
    ensures Abs(Contribution(row, a)) <= Abs(a.weight)
  {
    var e := Effect(row, a.sector);
    assert e == -1 || e == 0 || e == 1;
  }

  /** The score never exceeds the total absolute weight of the portfolio in
      magnitude, whatever the weights sum to. */
  lemma {:induction false} ScoreBounded(p: Portfolio, topic: string)
    ensures Abs(RiskScore(p, topic)) <= TotalAbsWeight(p)
    decreases |p|
  {
    if topic in MacroImpactMatrix && p != [] {
      var row := MacroImpactMatrix[topic];
      MatrixEffectsAreUnit();
      ScoreBounded(p[1..], topic);
      ImpactCons(row, p[0], p[1..]);
      assert [p[0]] + p[1..] == p;
      ContributionBounded(row, p[0]);
    }
  }

  /** Multiplying a sum of a score and a weighted effect by `c`. */
  lemma Distribute(c: real, score: real, weight: real, effect: real)
    ensures c * score + (c * weight) * effect == c * (score + weight * effect)
  {
  }

  /** All but the last asset of a scaled portfolio is the scaled prefix. */
  lemma ScaledPrefix(p: Portfolio, c: real)
    requires p != []
    ensures Scaled(p, c)[..|p| - 1] == Scaled(p[..|p| - 1], c)
  {
    var q := p[..|p| - 1];
    forall i | 0 <= i < |q|
      ensures Scaled(p, c)[..|p| - 1][i] == Scaled(q, c)[i]
    {
      assert q[i] == p[i];
    }
  }

  /** Scaling every weight scales the accumulated impact under any row. */
  lemma {:induction false} ImpactScales(row: map<string, int>, p: Portfolio, c: real)
    ensures Impact(row, Scaled(p, c)) == c * Impact(row, p)
    decreases |p|
  {
    if p != [] {
      var q, a := p[..|p| - 1], p[|p| - 1];
      ScaledPrefix(p, c);
      ImpactScales(row, q, c);
      Distribute(c, Impact(row, q), a.weight, Effect(row, a.sector) as real);
    }
  }

  /** Weights are used as given: scaling every weight scales the score, so
      nothing normalises them to sum to 1. */
  lemma ScoreScalesWithWeights(p: Portfolio, topic: string, c: real)
    ensures RiskScore(Scaled(p, c), topic) == c * RiskScore(p, topic)
  {
    if topic in MacroImpactMatrix {
      ImpactScales(MacroImpactMatrix[topic], p, c);
    }
  }

  /** The default portfolio under an interest-rate headline. */
  lemma InterestRatesOnDefaultPortfolio()
    ensures RiskScore(DefaultPortfolio, "interest rates") == -0.15
  {
    var row := MacroImpactMatrix["interest rates"];
    var p := DefaultPortfolio;
    assert Impact(row, p[..1]) == -0.25 by { assert p[..1][..0] == []; }
    assert Impact(row, p[..2]) == -0.05 by { assert p[..2][..1] == p[..1]; }
    assert Impact(row, p[..3]) == -0.05 by { assert p[..3][..2] == p[..2]; }
    assert Impact(row, p[..4]) == -0.30 by { assert p[..4][..3] == p[..3]; }
    assert p[..5][..4] == p[..4] && p[..5] == p;
  }

  /** The default portfolio under a job-market headline. */
  lemma JobMarketOnDefaultPortfolio()
    ensures RiskScore(DefaultPortfolio, "job market") == 0.20
  {
    var row := MacroImpactMatrix["job market"];
    var p := DefaultPortfolio;
    assert Impact(row, p[..1]) == 0.25 by { assert p[..1][..0] == []; }
    assert Impact(row, p[..2]) == 0.45 by { assert p[..2][..1] == p[..1]; }
    assert Impact(row, p[..3]) == 0.45 by { assert p[..3][..2] == p[..2]; }
    assert Impact(row, p[..4]) == 0.20 by { assert p[..4][..3] == p[..3]; }
    assert p[..5][..4] == p[..4] && p[..5] == p;
  }
}
