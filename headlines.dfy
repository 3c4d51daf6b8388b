/** The sample headlines the page offers, and the topic each of them is
    classified under. Each proof lowers the headline part by part, finds a
    keyword of its topic inside one part and excludes every keyword of an
    earlier row of the table: either one of its characters is missing from
    the headline, or two of its neighbouring characters never stand side by
    side in it. */
module SampleHeadlines {
  import opened Text
  import opened TopicClassifier

  /** `mock_headlines`, the headlines the page offers for analysis. */
  const MockHeadlines: seq<string> := [
    "Federal Reserve signals further interest rate hikes",
    "US inflation eases to 2.3% in latest CPI report",
    "Tensions escalate in Taiwan Strait after military drills",
    "OPEC announces oil production cuts amid falling prices",
    "US job growth slows sharply, unemployment ticks up"
  ]

  /** The sample headlines lower-cased, written in the four parts the proofs
      below cut them into. */
  const LoweredHeadline0: string := "federal reserve " + "signals further " + "interest " + "rate hikes"
  const LoweredHeadline1: string := "us inflation " + "eases to 2.3% " + "in latest " + "cpi report"
  const LoweredHeadline2: string := "tensions escalate " + "in taiwan " + "strait after " + "military drills"
  const LoweredHeadline3: string := "opec announces " + "oil production " + "cuts amid " + "falling prices"
  const LoweredHeadline4: string := "us job growth " + "slows sharply, " + "unemployment " + "ticks up"

  // Sample headline 0.

  /** Sample headline 0, cut into four parts at spaces. */
  lemma SampleHeadlineParts0()
    ensures "Federal Reserve signals further interest rate hikes" == "Federal Reserve " + "signals further " + "interest " + "rate hikes"
  {
  }

  /** Sample headline 0, lower-cased part by part. */
  lemma SampleHeadlineLowered0()
    ensures ToLower(MockHeadlines[0]) == LoweredHeadline0
  {
    assert MockHeadlines[0] == "Federal Reserve signals further interest rate hikes";
    SampleHeadlineParts0();
    ToLowerParts("Federal Reserve ", "signals further ", "interest ", "rate hikes");
    assert ToLower("Federal Reserve ") == "federal reserve ";
    assert ToLower("signals further ") == "signals further ";
    assert ToLower("interest ") == "interest ";
    assert ToLower("rate hikes") == "rate hikes";
  }

  /** Sample headline 0, lower-cased, holds "rate hike", a keyword of the
      first row of the table. */
  lemma LoweredHeadline0Keywords()
    ensures SomeKeywordOccurs(MacroKeywords[0].1, LoweredHeadline0)
  {
    assert OccursAt("rate hike", "rate hikes", 0);
    OccursInParts("federal reserve ", "signals further ", "interest ", "rate hikes", "rate hike");
    assert "rate hike" in MacroKeywords[0].1;
  }

  /** The first sample headline is about interest rates. */
  lemma FederalReserveTopic()
    ensures ClassifyMacroTopic(MockHeadlines[0]) == "interest rates"
  {
    SampleHeadlineLowered0();
    LoweredHeadline0Keywords();
    ClassifyMacroTopicIsFirstMatch(MockHeadlines[0], 0);
  }

  // Sample headline 1.

  /** Sample headline 1, cut into four parts at spaces. */
  lemma SampleHeadlineParts1()
    ensures "US inflation eases to 2.3% in latest CPI report" == "US inflation " + "eases to 2.3% " + "in latest " + "CPI report"
  {
  }

  /** Sample headline 1, lower-cased part by part. */
  lemma SampleHeadlineLowered1()
    ensures ToLower(MockHeadlines[1]) == LoweredHeadline1
  {
    assert MockHeadlines[1] == "US inflation eases to 2.3% in latest CPI report";
    SampleHeadlineParts1();
    ToLowerParts("US inflation ", "eases to 2.3% ", "in latest ", "CPI report");
    assert ToLower("US inflation ") == "us inflation ";
    assert ToLower("eases to 2.3% ") == "eases to 2.3% ";
    assert ToLower("in latest ") == "in latest ";
    assert ToLower("CPI report") == "cpi report";
  }

  lemma LoweredHeadline1LacksRateHike()
    ensures !Occurs("rate hike", LoweredHeadline1)
  {
    AbsentCharExcludes("rate hike", LoweredHeadline1, 5);
  }

  lemma LoweredHeadline1LacksFederalReserve()
    ensures !Occurs("federal reserve", LoweredHeadline1)
  {
    AbsentCharExcludes("federal reserve", LoweredHeadline1, 2);
  }

  lemma LoweredHeadline1LacksInterestRate()
    ensures !Occurs("interest rate", LoweredHeadline1)
  {
    NoPairInParts("us inflation ", "eases to 2.3% ", "in latest ", "cpi report", 'n', 't');
    PairAbsentExcludes("interest rate", LoweredHeadline1, 1);
  }

  /** Sample headline 1, lower-cased, holds "inflation" and no keyword of an
      earlier row of the table. */
  lemma LoweredHeadline1Keywords()
    ensures !SomeKeywordOccurs(MacroKeywords[0].1, LoweredHeadline1)
    ensures SomeKeywordOccurs(MacroKeywords[1].1, LoweredHeadline1)
  {
    LoweredHeadline1LacksRateHike();
    LoweredHeadline1LacksFederalReserve();
    LoweredHeadline1LacksInterestRate();
    assert OccursAt("inflation", "us inflation ", 3);
    OccursInParts("us inflation ", "eases to 2.3% ", "in latest ", "cpi report", "inflation");
    assert "inflation" in MacroKeywords[1].1;
  }

  /** The second sample headline is about inflation. */
  lemma InflationTopic()
    ensures ClassifyMacroTopic(MockHeadlines[1]) == "inflation"
  {
    SampleHeadlineLowered1();
    LoweredHeadline1Keywords();
    ClassifyMacroTopicIsFirstMatch(MockHeadlines[1], 1);
  }

  // Sample headline 2.

  /** Sample headline 2, cut into four parts at spaces. */
  lemma SampleHeadlineParts2()
    ensures "Tensions escalate in Taiwan Strait after military drills" == "Tensions escalate " + "in Taiwan " + "Strait after " + "military drills"
  {
  }

  /** Sample headline 2, lower-cased part by part. */
  lemma SampleHeadlineLowered2()
    ensures ToLower(MockHeadlines[2]) == LoweredHeadline2
  {
    assert MockHeadlines[2] == "Tensions escalate in Taiwan Strait after military drills";
    SampleHeadlineParts2();
    ToLowerParts("Tensions escalate ", "in Taiwan ", "Strait after ", "military drills");
    assert ToLower("Tensions escalate ") == "tensions escalate ";
    assert ToLower("in Taiwan ") == "in taiwan ";
    assert ToLower("Strait after ") == "strait after ";
    assert ToLower("military drills") == "military drills";
  }

  lemma LoweredHeadline2LacksRateHike()
    ensures !Occurs("rate hike", LoweredHeadline2)
  {
    AbsentCharExcludes("rate hike", LoweredHeadline2, 5);
  }

  lemma LoweredHeadline2LacksFederalReserve()
    ensures !Occurs("federal reserve", LoweredHeadline2)
  {
    AbsentCharExcludes("federal reserve", LoweredHeadline2, 13);
  }

  lemma LoweredHeadline2LacksInterestRate()
    ensures !Occurs("interest rate", LoweredHeadline2)
  {
    NoPairInParts("tensions escalate ", "in taiwan ", "strait after ", "military drills", 'n', 't');
    PairAbsentExcludes("interest rate", LoweredHeadline2, 1);
  }

  lemma LoweredHeadline2LacksInflation()
    ensures !Occurs("inflation", LoweredHeadline2)
  {
    NoPairInParts("tensions escalate ", "in taiwan ", "strait after ", "military drills", 'n', 'f');
    PairAbsentExcludes("inflation", LoweredHeadline2, 1);
  }

  lemma LoweredHeadline2LacksCpi()
    ensures !Occurs("cpi", LoweredHeadline2)
  {
    AbsentCharExcludes("cpi", LoweredHeadline2, 1);
  }

  lemma LoweredHeadline2LacksConsumerPrice()
    ensures !Occurs("consumer price", LoweredHeadline2)
  {
    AbsentCharExcludes("consumer price", LoweredHeadline2, 4);
  }

  /** Sample headline 2, lower-cased, holds "tensions" and no keyword of an
      earlier row of the table. */
  lemma LoweredHeadline2Keywords()
    ensures !SomeKeywordOccurs(MacroKeywords[0].1, LoweredHeadline2)
    ensures !SomeKeywordOccurs(MacroKeywords[1].1, LoweredHeadline2)
    ensures SomeKeywordOccurs(MacroKeywords[2].1, LoweredHeadline2)
  {
    LoweredHeadline2LacksRateHike();
    LoweredHeadline2LacksFederalReserve();
    LoweredHeadline2LacksInterestRate();
    LoweredHeadline2LacksInflation();
    LoweredHeadline2LacksCpi();
    LoweredHeadline2LacksConsumerPrice();
    assert OccursAt("tensions", "tensions escalate ", 0);
    OccursInParts("tensions escalate ", "in taiwan ", "strait after ", "military drills", "tensions");
    assert "tensions" in MacroKeywords[2].1;
  }

  /** The third sample headline is about geopolitical tension. */
  lemma TensionsTopic()
    ensures ClassifyMacroTopic(MockHeadlines[2]) == "geopolitical tension"
  {
    SampleHeadlineLowered2();
    LoweredHeadline2Keywords();
    ClassifyMacroTopicIsFirstMatch(MockHeadlines[2], 2);
  }

  // Sample headline 3.

  /** Sample headline 3, cut into four parts at spaces. */
  lemma SampleHeadlineParts3()
    ensures "OPEC announces oil production cuts amid falling prices" == "OPEC announces " + "oil production " + "cuts amid " + "falling prices"
  {
  }

  /** Sample headline 3, lower-cased part by part. */
  lemma SampleHeadlineLowered3()
    ensures ToLower(MockHeadlines[3]) == LoweredHeadline3
  {
    assert MockHeadlines[3] == "OPEC announces oil production cuts amid falling prices";
    SampleHeadlineParts3();
    ToLowerParts("OPEC announces ", "oil production ", "cuts amid ", "falling prices");
    assert ToLower("OPEC announces ") == "opec announces ";
    assert ToLower("oil production ") == "oil production ";
    assert ToLower("cuts amid ") == "cuts amid ";
    assert ToLower("falling prices") == "falling prices";
  }

  lemma LoweredHeadline3LacksRateHike()
    ensures !Occurs("rate hike", LoweredHeadline3)
  {
    AbsentCharExcludes("rate hike", LoweredHeadline3, 5);
  }

  lemma LoweredHeadline3LacksFederalReserve()
    ensures !Occurs("federal reserve", LoweredHeadline3)
  {
    AbsentCharExcludes("federal reserve", LoweredHeadline3, 13);
  }

  lemma LoweredHeadline3LacksInterestRate()
    ensures !Occurs("interest rate", LoweredHeadline3)
  {
    NoPairInParts("opec announces ", "oil production ", "cuts amid ", "falling prices", 'n', 't');
    PairAbsentExcludes("interest rate", LoweredHeadline3, 1);
  }

  lemma LoweredHeadline3LacksInflation()
    ensures !Occurs("inflation", LoweredHeadline3)
  {
    NoPairInParts("opec announces ", "oil production ", "cuts amid ", "falling prices", 'n', 'f');
    PairAbsentExcludes("inflation", LoweredHeadline3, 1);
  }

  lemma LoweredHeadline3LacksCpi()
    ensures !Occurs("cpi", LoweredHeadline3)
  {
    NoPairInParts("opec announces ", "oil production ", "cuts amid ", "falling prices", 'c', 'p');
    PairAbsentExcludes("cpi", LoweredHeadline3, 0);
  }

  lemma LoweredHeadline3LacksConsumerPrice()
    ensures !Occurs("consumer price", LoweredHeadline3)
  {
    NoPairInParts("opec announces ", "oil production ", "cuts amid ", "falling prices", 'c', 'o');
    PairAbsentExcludes("consumer price", LoweredHeadline3, 0);
  }

  lemma LoweredHeadline3LacksTensions()
    ensures !Occurs("tensions", LoweredHeadline3)
  {
    NoPairInParts("opec announces ", "oil production ", "cuts amid ", "falling prices", 't', 'e');
    PairAbsentExcludes("tensions", LoweredHeadline3, 0);
  }

  lemma LoweredHeadline3LacksWar()
    ensures !Occurs("war", LoweredHeadline3)
  {
    AbsentCharExcludes("war", LoweredHeadline3, 0);
  }

  lemma LoweredHeadline3LacksConflict()
    ensures !Occurs("conflict", LoweredHeadline3)
  {
    NoPairInParts("opec announces ", "oil production ", "cuts amid ", "falling prices", 'c', 'o');
    PairAbsentExcludes("conflict", LoweredHeadline3, 0);
  }

  lemma LoweredHeadline3LacksChina()
    ensures !Occurs("china", LoweredHeadline3)
  {
    AbsentCharExcludes("china", LoweredHeadline3, 1);
  }

  lemma LoweredHeadline3LacksDrills()
    ensures !Occurs("drills", LoweredHeadline3)
  {
    NoPairInParts("opec announces ", "oil production ", "cuts amid ", "falling prices", 'd', 'r');
    PairAbsentExcludes("drills", LoweredHeadline3, 0);
  }

  /** Sample headline 3, lower-cased, holds "oil" and no keyword of an
      earlier row of the table. */
  lemma LoweredHeadline3Keywords()
    ensures !SomeKeywordOccurs(MacroKeywords[0].1, LoweredHeadline3)
    ensures !SomeKeywordOccurs(MacroKeywords[1].1, LoweredHeadline3)
    ensures !SomeKeywordOccurs(MacroKeywords[2].1, LoweredHeadline3)
    ensures SomeKeywordOccurs(MacroKeywords[3].1, LoweredHeadline3)
  {
    LoweredHeadline3LacksRateHike();
    LoweredHeadline3LacksFederalReserve();
    LoweredHeadline3LacksInterestRate();
    LoweredHeadline3LacksInflation();
    LoweredHeadline3LacksCpi();
    LoweredHeadline3LacksConsumerPrice();
    LoweredHeadline3LacksTensions();
    LoweredHeadline3LacksWar();
    LoweredHeadline3LacksConflict();
    LoweredHeadline3LacksChina();
    LoweredHeadline3LacksDrills();
    assert OccursAt("oil", "oil production ", 0);
    OccursInParts("opec announces ", "oil production ", "cuts amid ", "falling prices", "oil");
    assert "oil" in MacroKeywords[3].1;
  }

  /** The fourth sample headline is about oil prices. */
  lemma OilTopic()
    ensures ClassifyMacroTopic(MockHeadlines[3]) == "oil prices"
  {
    SampleHeadlineLowered3();
    LoweredHeadline3Keywords();
    ClassifyMacroTopicIsFirstMatch(MockHeadlines[3], 3);
  }

  // Sample headline 4.

  /** Sample headline 4, cut into four parts at spaces. */
  lemma SampleHeadlineParts4()
    ensures "US job growth slows sharply, unemployment ticks up" == "US job growth " + "slows sharply, " + "unemployment " + "ticks up"
  {
  }

  /** Sample headline 4, lower-cased part by part. */
  lemma SampleHeadlineLowered4()
    ensures ToLower(MockHeadlines[4]) == LoweredHeadline4
  {
    assert MockHeadlines[4] == "US job growth slows sharply, unemployment ticks up";
    SampleHeadlineParts4();
    ToLowerParts("US job growth ", "slows sharply, ", "unemployment ", "ticks up");
    assert ToLower("US job growth ") == "us job growth ";
    assert ToLower("slows sharply, ") == "slows sharply, ";
    assert ToLower("unemployment ") == "unemployment ";
    assert ToLower("ticks up") == "ticks up";
  }

  lemma LoweredHeadline4LacksRateHike()
    ensures !Occurs("rate hike", LoweredHeadline4)
  {
    NoPairInParts("us job growth ", "slows sharply, ", "unemployment ", "ticks up", 'r', 'a');
    PairAbsentExcludes("rate hike", LoweredHeadline4, 0);
  }

  lemma LoweredHeadline4LacksFederalReserve()
    ensures !Occurs("federal reserve", LoweredHeadline4)
  {
    AbsentCharExcludes("federal reserve", LoweredHeadline4, 0);
  }

  lemma LoweredHeadline4LacksInterestRate()
    ensures !Occurs("interest rate", LoweredHeadline4)
  {
    NoPairInParts("us job growth ", "slows sharply, ", "unemployment ", "ticks up", 'i', 'n');
    PairAbsentExcludes("interest rate", LoweredHeadline4, 0);
  }

  lemma LoweredHeadline4LacksInflation()
    ensures !Occurs("inflation", LoweredHeadline4)
  {
    AbsentCharExcludes("inflation", LoweredHeadline4, 2);
  }

  lemma LoweredHeadline4LacksCpi()
    ensures !Occurs("cpi", LoweredHeadline4)
  {
    NoPairInParts("us job growth ", "slows sharply, ", "unemployment ", "ticks up", 'c', 'p');
    PairAbsentExcludes("cpi", LoweredHeadline4, 0);
  }

  lemma LoweredHeadline4LacksConsumerPrice()
    ensures !Occurs("consumer price", LoweredHeadline4)
  {
    NoPairInParts("us job growth ", "slows sharply, ", "unemployment ", "ticks up", 'c', 'o');
    PairAbsentExcludes("consumer price", LoweredHeadline4, 0);
  }

  lemma LoweredHeadline4LacksTensions()
    ensures !Occurs("tensions", LoweredHeadline4)
  {
    NoPairInParts("us job growth ", "slows sharply, ", "unemployment ", "ticks up", 't', 'e');
    PairAbsentExcludes("tensions", LoweredHeadline4, 0);
  }

  lemma LoweredHeadline4LacksWar()
    ensures !Occurs("war", LoweredHeadline4)
  {
    NoPairInParts("us job growth ", "slows sharply, ", "unemployment ", "ticks up", 'w', 'a');
    PairAbsentExcludes("war", LoweredHeadline4, 0);
  }

  lemma LoweredHeadline4LacksConflict()
    ensures !Occurs("conflict", LoweredHeadline4)
  {
    AbsentCharExcludes("conflict", LoweredHeadline4, 3);
  }

  lemma LoweredHeadline4LacksChina()
    ensures !Occurs("china", LoweredHeadline4)
  {
    NoPairInParts("us job growth ", "slows sharply, ", "unemployment ", "ticks up", 'c', 'h');
    PairAbsentExcludes("china", LoweredHeadline4, 0);
  }

  lemma LoweredHeadline4LacksDrills()
    ensures !Occurs("drills", LoweredHeadline4)
  {
    AbsentCharExcludes("drills", LoweredHeadline4, 0);
  }

  lemma LoweredHeadline4LacksOil()
    ensures !Occurs("oil", LoweredHeadline4)
  {
    NoPairInParts("us job growth ", "slows sharply, ", "unemployment ", "ticks up", 'o', 'i');
    PairAbsentExcludes("oil", LoweredHeadline4, 0);
  }

  lemma LoweredHeadline4LacksOpec()
    ensures !Occurs("opec", LoweredHeadline4)
  {
    NoPairInParts("us job growth ", "slows sharply, ", "unemployment ", "ticks up", 'o', 'p');
    PairAbsentExcludes("opec", LoweredHeadline4, 0);
  }

  lemma LoweredHeadline4LacksProductionCuts()
    ensures !Occurs("production cuts", LoweredHeadline4)
  {
    AbsentCharExcludes("production cuts", LoweredHeadline4, 3);
  }

  /** Sample headline 4, lower-cased, holds "unemployment" and no keyword of an
      earlier row of the table. */
  lemma LoweredHeadline4Keywords()
    ensures !SomeKeywordOccurs(MacroKeywords[0].1, LoweredHeadline4)
    ensures !SomeKeywordOccurs(MacroKeywords[1].1, LoweredHeadline4)
    ensures !SomeKeywordOccurs(MacroKeywords[2].1, LoweredHeadline4)
    ensures !SomeKeywordOccurs(MacroKeywords[3].1, LoweredHeadline4)
    ensures SomeKeywordOccurs(MacroKeywords[4].1, LoweredHeadline4)
  {
    LoweredHeadline4LacksRateHike();
    LoweredHeadline4LacksFederalReserve();
    LoweredHeadline4LacksInterestRate();
    LoweredHeadline4LacksInflation();
    LoweredHeadline4LacksCpi();
    LoweredHeadline4LacksConsumerPrice();
    LoweredHeadline4LacksTensions();
    LoweredHeadline4LacksWar();
    LoweredHeadline4LacksConflict();
    LoweredHeadline4LacksChina();
    LoweredHeadline4LacksDrills();
    LoweredHeadline4LacksOil();
    LoweredHeadline4LacksOpec();
    LoweredHeadline4LacksProductionCuts();
    assert OccursAt("unemployment", "unemployment ", 0);
    OccursInParts("us job growth ", "slows sharply, ", "unemployment ", "ticks up", "unemployment");
    assert "unemployment" in MacroKeywords[4].1;
  }

  /** The last sample headline is about the job market. */
  lemma JobMarketTopic()
    ensures ClassifyMacroTopic(MockHeadlines[4]) == "job market"
  {
    SampleHeadlineLowered4();
    LoweredHeadline4Keywords();
    ClassifyMacroTopicIsFirstMatch(MockHeadlines[4], 4);
  }
}
