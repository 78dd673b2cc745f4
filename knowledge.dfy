/** The local knowledge base: the index built from the intent dataset
    (`conditions_dict`) and the fuzzy-match fallback resolver
    (`get_first_aid_response`). */
module Knowledge {
  import opened Wrappers
  import opened Text

  /** One record of the intent dataset: example phrasings and candidate answers. */
  datatype Intent = Intent(patterns: seq<string>, responses: seq<string>)

  /** Lower-cased pattern to the first response of its intent. */
  type Index = map<string, string>

  /** Some pattern in `patterns` lower-cases to `key`. */
  predicate Covers(patterns: seq<string>, key: string) {
    exists j :: 0 <= j < |patterns| && Lower(patterns[j]) == key
  }

  /** An intent whose patterns would be indexed but that has no response to
      index them to: building the dictionary fails on `responses[0]`. */
  predicate Malformed(intent: Intent) {
    |intent.patterns| > 0 && |intent.responses| == 0
  }

  /** `index` with every pattern of one intent, lower-cased, mapped to `answer`. */
  function AddPatterns(index: Index, patterns: seq<string>, answer: string): (r: Index)
    ensures forall k :: k in r <==> k in index || Covers(patterns, k)
    ensures forall k :: k in r ==> r[k] == if Covers(patterns, k) then answer else index[k]
  {
    if patterns == [] then index
    else
      var init := patterns[..|patterns| - 1];
      var m := AddPatterns(index, init, answer);
      assert forall k :: Covers(patterns, k) <==> Covers(init, k) || Lower(patterns[|patterns| - 1]) == k by {
        forall k | Covers(patterns, k) && !Covers(init, k)
          ensures Lower(patterns[|patterns| - 1]) == k
        {
          var j :| 0 <= j < |patterns| && Lower(patterns[j]) == k;
        }
        forall k | Covers(init, k) ensures Covers(patterns, k) {
          var j :| 0 <= j < |init| && Lower(init[j]) == k;
          assert patterns[j] == init[j];
        }
      }
      m[Lower(patterns[|patterns| - 1]) := answer]
  }

  /** The dictionary comprehension over the dataset: every pattern of every
      intent, in order, lower-cased and mapped to its intent's first response;
      a later intent overwrites an earlier one on the same key. `None` is the
      start-up failure of an intent with patterns but no response. */
  function BuildIndex(intents: seq<Intent>): (r: Option<Index>)
    ensures r.None? <==> exists i :: 0 <= i < |intents| && Malformed(intents[i])
    ensures r.Some? ==> forall k :: k in r.value <==>
      exists i :: 0 <= i < |intents| && Covers(intents[i].patterns, k)
  {
    if intents == [] then Some(map[])
    else
      var init := intents[..|intents| - 1];
      var last := intents[|intents| - 1];
      assert forall i :: 0 <= i < |init| ==> init[i] == intents[i];
      match BuildIndex(init)
      case None => None
      case Some(m) =>
        if Malformed(last) then None
        else if last.patterns == [] then Some(m)
        else Some(AddPatterns(m, last.patterns, last.responses[0]))
  }

  /** Every key of the index is already lower-case. */
  lemma IndexKeysLowered(intents: seq<Intent>, k: string)
    requires BuildIndex(intents).Some? && k in BuildIndex(intents).value
    ensures Lower(k) == k
  {
    var i :| 0 <= i < |intents| && Covers(intents[i].patterns, k);
    var j :| 0 <= j < |intents[i].patterns| && Lower(intents[i].patterns[j]) == k;
    LowerIdempotent(intents[i].patterns[j]);
  }

  /** A key maps to the first response of the last intent, in dataset order,
      that has a pattern lower-casing to it. */
  lemma {:induction false} IndexLastWins(intents: seq<Intent>, i: int, k: string)
    requires BuildIndex(intents).Some?
    requires 0 <= i < |intents| && Covers(intents[i].patterns, k)
    requires forall i' :: i < i' < |intents| ==> !Covers(intents[i'].patterns, k)
    ensures k in BuildIndex(intents).value
    ensures |intents[i].responses| > 0
    ensures BuildIndex(intents).value[k] == intents[i].responses[0]
    decreases |intents|
  {
    var init := intents[..|intents| - 1];
    var last := intents[|intents| - 1];
    assert forall i' :: 0 <= i' < |init| ==> init[i'] == intents[i'];
    assert BuildIndex(init).Some?;
    if i < |intents| - 1 {
      IndexLastWins(init, i, k);
    }
  }

  // ---------------------------------------------------------------------------
  // The fallback resolver
  // ---------------------------------------------------------------------------

  /** What the fuzzy matcher reports: the best key and its score. */
  datatype Candidate = Candidate(key: string, score: int)

  /** What `process.extractOne` over the index's keys can return: nothing
      exactly when there are no keys, otherwise a key of the index with a
      score between 0 and 100. */
  predicate IsExtractOneResult(index: Index, best: Option<Candidate>) {
    match best
    case None => index == map[]
    case Some(c) => c.key in index && 0 <= c.score <= 100
  }

  /** A match is accepted only when its score is strictly above this. */
  const Threshold := 60

  const TamilApology := "மன்னிக்கவும்! எனக்கு இந்த தகவல் இல்லை, மருத்துவரை தொடர்பு கொள்ளவும்."
  const EnglishApology := "Sorry! I don't have the answer, consult with a doctor pls."

  /** The "no answer" message for a session language. */
  function Apology(language: string): (r: string)
    ensures r == TamilApology <==> language == "Tamil"
    ensures r == EnglishApology <==> language != "Tamil"
    ensures r != ""
  {
    assert |TamilApology| != |EnglishApology|;
    if language == "Tamil" then TamilApology else EnglishApology
  }

  /** The matcher's best candidate is good enough to answer with. */
  predicate Accepted(best: Option<Candidate>) {
    best.Some? && best.value.score > Threshold
  }

  /** `get_first_aid_response`: the query is lower-cased and handed to the
      matcher; the indexed answer of its best key is returned when the score
      is strictly above the threshold, and the localized apology otherwise
      (no candidate, or a score of at most 60). */
  function GetFirstAidResponse(index: Index, extractOne: string -> Option<Candidate>,
                               userQuery: string, language: string): (r: string)
    requires IsExtractOneResult(index, extractOne(Lower(userQuery)))
    ensures var best := extractOne(Lower(userQuery));
      (Accepted(best) ==> r == index[best.value.key]) &&
      (!Accepted(best) ==> r == Apology(language))
    ensures r in index.Values || r == TamilApology || r == EnglishApology
    ensures index == map[] ==> r == Apology(language)
  {
    var best := extractOne(Lower(userQuery));
    if best.Some? && best.value.score > Threshold then index[best.value.key]
    else Apology(language)
  }
}
