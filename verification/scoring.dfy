/** `getValue`: the engagement score of one municipality on the active
    platform, the mean of a reach term and an activity term. */
module Scoring {
  import opened Wrappers
  import opened JsNumber
  import opened JsText
  import opened Records

  /** The highest rank of the posting-frequency table. */
  const MaxFrequenza: int := 5

  /** The key a label is looked up under: a non-empty label is trimmed and
      lower-cased, an empty one is used as it is. */
  function FrequencyKey(frequenza: string): (key: string)
    ensures |key| <= |frequenza|
    ensures Trimmed(key)
    ensures forall k :: 0 <= k < |key| ==> !IsUpper(key[k])
  {
    if frequenza != "" then
      LowerKeepsTrimmed(Trim(frequenza));
      Lower(Trim(frequenza))
    else frequenza
  }

  /** The guard on the empty label changes nothing: every label is looked up
      under its trimmed lower-case form, and that form is a fixed point. */
  lemma {:induction false} FrequencyKeyNormalises(frequenza: string)
    ensures FrequencyKey(frequenza) == Lower(Trim(frequenza))
    ensures FrequencyKey(FrequencyKey(frequenza)) == FrequencyKey(frequenza)
  {
    if frequenza == "" {
      TrimBlank(frequenza);
    }
    var key := FrequencyKey(frequenza);
    if key != "" {
      assert [] + key + [] == key;
      TrimUnique([], key, []);
      assert Lower(key) == key;
    }
  }

  /** The rank the frequency table gives a label: the table's entry for the
      trimmed lower-case label, or 0 when the table lacks that key. */
  function Rank(freq: map<string, int>, frequenza: string): (n: int)
    ensures n != 0 ==> FrequencyKey(frequenza) in freq
    ensures Lower(Trim(frequenza)) in freq ==> n == freq[Lower(Trim(frequenza))]
    ensures Lower(Trim(frequenza)) !in freq ==> n == 0
  {
    FrequencyKeyNormalises(frequenza);
    var key := FrequencyKey(frequenza);
    if key in freq then freq[key] else 0
  }

  /** A table whose ranks lie in 0..`MaxFrequenza` gives every label, known
      or not, a rank in that range. */
  lemma RankInRange(freq: map<string, int>, frequenza: string)
    requires RanksInRange(freq)
    ensures 0 <= Rank(freq, frequenza) <= MaxFrequenza
  {
  }

  /** The count the reach term is taken from: followers, or likes when the
      followers column is not a number. */
  function ReachCount(r: Record): Num {
    if r.followers.Some? then r.followers else r.likes
  }

  /** The reach term: followers per resident, or likes per resident when the
      followers column is not a number. */
  function Param1(r: Record): (p: Num)
    ensures p.Some? <==> ReachCount(r).Some? && r.residenti.Some? && r.residenti.value != 0.0
    ensures p.Some? ==> p.value * r.residenti.value == ReachCount(r).value
  {
    var byFollowers := Div(r.followers, r.residenti);
    if r.followers.None? then Div(r.likes, r.residenti) else byFollowers
  }

  /** The engagement score of row `r` while `social` is the active key. */
  function GetValue(r: Record, social: string, freq: map<string, int>): (v: Num)
    ensures social != "yt" ==> (v.Some? <==> Param1(r).Some?)
    ensures social == "yt" ==> (v.Some? <==> Div(r.views, r.residenti).Some?)
    ensures v.Some? && social != "yt" ==>
      v.value + v.value == Param1(r).value + Rank(freq, r.frequenza) as real / MaxFrequenza as real
    ensures v.Some? && social == "yt" ==>
      v.value + v.value == Param1(r).GetOr(0.0) + Div(r.views, r.residenti).value
  {
    var param1 := Param1(r);
    if social != "yt" then
      var param2 := Rank(freq, r.frequenza) as real / MaxFrequenza as real;
      Mean(param1, Some(param2))
    else
      var param2 := Div(r.views, r.residenti);
      var param1' := if param1.None? then Some(0.0) else param1;
      Mean(param1', param2)
  }

  /** The likes column is read exactly when the followers column is not a
      number: with numeric followers it can be anything, and otherwise the
      row scores as if its likes were its followers. */
  lemma LikesOnlyAsFallback(r: Record, likes: Num, social: string, freq: map<string, int>)
    ensures r.followers.Some? ==> GetValue(r.(likes := likes), social, freq) == GetValue(r, social, freq)
    ensures r.followers.None? ==> GetValue(r, social, freq) == GetValue(r.(followers := r.likes), social, freq)
  {
  }

  /** On YouTube the frequency table and the label are never consulted. */
  lemma YouTubeIgnoresFrequency(r: Record, frequenza: string, freq: map<string, int>, freq': map<string, int>)
    ensures GetValue(r.(frequenza := frequenza), "yt", freq') == GetValue(r, "yt", freq)
  {
  }

  /** Off YouTube the views column is never consulted. */
  lemma OthersIgnoreViews(r: Record, views: Num, social: string, freq: map<string, int>)
    requires social != "yt"
    ensures GetValue(r.(views := views), social, freq) == GetValue(r, social, freq)
  {
  }

  /** On YouTube a reach term that is not a number counts as 0, so a row
      without followers or likes still scores half its views per resident. */
  lemma YouTubeMissingReachIsZero(r: Record, freq: map<string, int>)
    requires Param1(r).None?
    requires r.residenti.Some? && r.residenti.value != 0.0 && r.views.Some?
    ensures GetValue(r, "yt", freq) == Some(r.views.value / r.residenti.value / 2.0)
  {
  }

  /** A label the table does not know, once normalised, contributes rank 0:
      the score is half the reach term. */
  lemma UnknownLabelRanksZero(r: Record, social: string, freq: map<string, int>)
    requires social != "yt"
    requires FrequencyKey(r.frequenza) !in freq
    ensures GetValue(r, social, freq) == Half(Param1(r))
  {
    var n := Rank(freq, r.frequenza);
    assert n == 0;
    assert GetValue(r, social, freq) == Mean(Param1(r), Some(n as real / MaxFrequenza as real));
    assert n as real / MaxFrequenza as real == 0.0;
    MeanWithZero(Param1(r));
  }

  /** An empty or all-white-space label ranks 0 as long as the table has no
      entry for the empty key. */
  lemma {:induction false} BlankLabelRanksZero(frequenza: string, freq: map<string, int>)
    requires AllWs(frequenza)
    requires "" !in freq
    ensures Rank(freq, frequenza) == 0
  {
    TrimBlank(frequenza);
    assert Lower("") == "";
  }

  /** Normalising a row's label in the dataset does not change its score. */
  lemma {:induction false} NormalisedLabelScoresAlike(r: Record, social: string, freq: map<string, int>)
    ensures GetValue(r.(frequenza := FrequencyKey(r.frequenza)), social, freq) == GetValue(r, social, freq)
  {
    FrequencyKeyNormalises(r.frequenza);
  }

  /** Every rank of the table lies between 0 and `MaxFrequenza`. */
  ghost predicate RanksInRange(freq: map<string, int>) {
    forall k :: k in freq ==> 0 <= freq[k] <= MaxFrequenza
  }

  /** With a positive population, a reach count between 0 and the population
      and a table of ranks 0..5, the score of a non-YouTube row lies in
      [0, 1], so its alpha channel lies in [0.2, 1.2]. */
  lemma {:induction false} ScoreInUnitRange(r: Record, social: string, freq: map<string, int>)
    requires social != "yt"
    requires RanksInRange(freq)
    requires r.residenti.Some? && r.residenti.value > 0.0
    requires ReachCount(r).Some? && 0.0 <= ReachCount(r).value <= r.residenti.value
    ensures GetValue(r, social, freq).Some?
    ensures 0.0 <= GetValue(r, social, freq).value <= 1.0
  {
    var count := ReachCount(r);
    var p1 := Param1(r);
    assert p1 == Some(count.value / r.residenti.value);
    DivisionInUnitRange(count.value, r.residenti.value);
    RankInRange(freq, r.frequenza);
  }

  /** The bound needs the reach count to stay within the population: with
      more followers than residents and the top rank the score exceeds 1. */
  lemma {:induction false} ScoreAboveOneWhenReachExceedsPopulation(r: Record, social: string, freq: map<string, int>)
    requires social != "yt"
    requires r.residenti.Some? && r.residenti.value > 0.0
    requires ReachCount(r).Some? && ReachCount(r).value > r.residenti.value
    requires FrequencyKey(r.frequenza) in freq && freq[FrequencyKey(r.frequenza)] == MaxFrequenza
    ensures GetValue(r, social, freq).Some?
    ensures GetValue(r, social, freq).value > 1.0
  {
    var p1 := Param1(r);
    assert p1.Some?;
    assert p1.value * r.residenti.value == ReachCount(r).value;
  }

  /** `0 <= c <= n` with `n > 0` gives `0 <= c / n <= 1`. */
  lemma DivisionInUnitRange(c: real, n: real)
    requires n > 0.0 && 0.0 <= c <= n
    ensures 0.0 <= c / n <= 1.0
  {
  }

  /** A worked row: 500 followers among 1000 residents posting "quotidiano"
      (written with stray case and padding) scores (0.5 + R / 5) / 2, where R
      is the table's rank for "quotidiano". */
  lemma {:induction false} QuotidianoExample(rank: int, freq: map<string, int>)
    requires "quotidiano" in freq && freq["quotidiano"] == rank
    ensures var r := Record("P", "1", "Comune", 0.0, 0.0,
                            Some(1000.0), Some(500.0), None, " Quotidiano\t", None);
      GetValue(r, "fb", freq) == Some((0.5 + rank as real / 5.0) / 2.0)
  {
    var text := " Quotidiano\t";
    assert LeadingWs(text[1..]) == 0;
    assert LeadingWs(text) == 1;
    var rest := text[1..];
    assert TrailingWs(rest[..|rest| - 1]) == 0;
    assert TrailingWs(rest) == 1;
    assert Trim(text) == "Quotidiano";
    assert Lower("Quotidiano") == "quotidiano";
  }
}
