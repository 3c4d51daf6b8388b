/** The macro topic classifier: a headline is lower-cased and the keyword
    table is searched in its insertion order; the first topic one of whose
    keywords occurs in the headline wins, and "unknown" is the fallback. */
module TopicClassifier {
  import opened Text

  /** One row of the keyword table: a topic and its lower-case keywords. */
  type KeywordTable = seq<(string, seq<string>)>

  /** The fallback topic, which is not a key of the table. */
  const UnknownTopic: string := "unknown"

  /** `macro_keywords`, in insertion order. */
  const MacroKeywords: KeywordTable := [
    ("interest rates", ["rate hike", "federal reserve", "interest rate"]),
    ("inflation", ["inflation", "cpi", "consumer price"]),
    ("geopolitical tension", ["tensions", "war", "conflict", "china", "drills"]),
    ("oil prices", ["oil", "opec", "production cuts"]),
    ("job market", ["job market", "unemployment", "jobs report"])
  ]

  /** The topics of a table, in table order. */
  function Topics(table: KeywordTable): (ts: seq<string>)
    ensures |ts| == |table|
    ensures forall i :: 0 <= i < |table| ==> ts[i] == table[i].0
  {
    seq(|table|, i requires 0 <= i < |table| => table[i].0)
  }

  /** Some keyword of the list is a substring of `s` (the `any(...)` test). */
  ghost predicate SomeKeywordOccurs(keywords: seq<string>, s: string)
  {
    exists k :: k in keywords && Occurs(k, s)
  }

  /** The executable `any(keyword in s for keyword in keywords)`. */
  function AnyKeywordIn(keywords: seq<string>, s: string): (b: bool)
    ensures b <==> SomeKeywordOccurs(keywords, s)
  {
    if keywords == [] then false
    else if Contains(s, keywords[0]) then true
    else
      var rest := AnyKeywordIn(keywords[1..], s);
      assert SomeKeywordOccurs(keywords, s) ==> rest by {
        if SomeKeywordOccurs(keywords, s) {
          var k :| k in keywords && Occurs(k, s);
          assert k != keywords[0];
          assert k in keywords[1..];
        }
      }
      rest
  }

  /** Position of the first row of `table` with a keyword in `s`, or
      `|table|` when no row has one. */
  function FirstMatch(table: KeywordTable, s: string): (i: nat)
    ensures i <= |table|
    ensures i < |table| ==> SomeKeywordOccurs(table[i].1, s)
    ensures forall j :: 0 <= j < i ==> !SomeKeywordOccurs(table[j].1, s)
  {
    if table == [] then 0
    else if AnyKeywordIn(table[0].1, s) then 0
    else 1 + FirstMatch(table[1..], s)
  }

  /** The search of `classify_macro_topic` over any table. */
  function ClassifyWith(table: KeywordTable, text: string): (topic: string)
  {
    var i := FirstMatch(table, ToLower(text));
    if i < |table| then table[i].0 else UnknownTopic
  }

  /** `classify_macro_topic`: the topic of a headline. */
  function ClassifyMacroTopic(text: string): (topic: string)
    ensures topic in Topics(MacroKeywords) || topic == UnknownTopic
    ensures topic == UnknownTopic <==>
      forall j :: 0 <= j < |MacroKeywords| ==> !SomeKeywordOccurs(MacroKeywords[j].1, ToLower(text))
  {
    ClassifyWith(MacroKeywords, text)
  }

  /** First-match priority over any table: the result is the topic of a row
      with a keyword in the lower-cased headline such that no earlier row has
      one, or it is the fallback and no row has one. */
  lemma ClassifyWithPriority(table: KeywordTable, text: string)
    ensures var topic := ClassifyWith(table, text);
      (exists i :: 0 <= i < |table| && table[i].0 == topic
        && SomeKeywordOccurs(table[i].1, ToLower(text))
        && forall j :: 0 <= j < i ==> !SomeKeywordOccurs(table[j].1, ToLower(text)))
      || (topic == UnknownTopic
        && forall j :: 0 <= j < |table| ==> !SomeKeywordOccurs(table[j].1, ToLower(text)))
  {
    var i := FirstMatch(table, ToLower(text));
    if i < |table| {
      assert table[i].0 == ClassifyWith(table, text);
    }
  }

  /** `classify_macro_topic` returns topic `t` exactly when `t` is the first
      topic in table order with a keyword in the lower-cased headline. */
  lemma ClassifyMacroTopicIsFirstMatch(text: string, i: nat)
    requires i < |MacroKeywords|
    ensures ClassifyMacroTopic(text) == MacroKeywords[i].0 <==>
      SomeKeywordOccurs(MacroKeywords[i].1, ToLower(text))
      && forall j :: 0 <= j < i ==> !SomeKeywordOccurs(MacroKeywords[j].1, ToLower(text))
  {
    var k := FirstMatch(MacroKeywords, ToLower(text));
    if ClassifyMacroTopic(text) == MacroKeywords[i].0 {
      assert k < |MacroKeywords|;
      assert MacroKeywords[k].0 == MacroKeywords[i].0;
      assert k == i;
    }
  }

  /** Any headline mentioning the Federal Reserve, in any case and whatever
      else it says, is about interest rates. */
  lemma FederalReserveIsInterestRates(text: string)
    requires Occurs("federal reserve", ToLower(text))
    ensures ClassifyMacroTopic(text) == "interest rates"
  {
    assert "federal reserve" in MacroKeywords[0].1;
    assert SomeKeywordOccurs(MacroKeywords[0].1, ToLower(text));
  }

  /** ASCII upper- or lower-casing a headline does not change its topic. */
  lemma ClassifyIgnoresCase(text: string)
    ensures ClassifyMacroTopic(ToUpper(text)) == ClassifyMacroTopic(text)
    ensures ClassifyMacroTopic(ToLower(text)) == ClassifyMacroTopic(text)
  {
    ToLowerIgnoresCase(text);
    ToLowerIdempotent(text);
  }
}
