/** Producing the answer to one query: the localized prompt for the
    generative model, the five-word quality gate with its fallback to the
    knowledge base, and the rule that prepares a spoken query. */
module Pipeline {
  import opened Wrappers
  import opened Text
  import opened Knowledge

  /** The two session languages offered by the language buttons. */
  datatype Language = English | Tamil {
    /** The value the session stores for this language. */
    function Name(): (r: string)
      ensures r == "Tamil" <==> this == Tamil
      ensures r == "English" <==> this == English
    {
      match this
      case English => "English"
      case Tamil => "Tamil"
    }
  }

  // ---------------------------------------------------------------------------
  // The prompt for the generative model
  // ---------------------------------------------------------------------------

  function PromptHead(language: Language): string {
    match language
    case Tamil => "குறைந்தது 2-3 வரிகளில் "
    case English => "Provide a **2-3 line** first-aid measure for: "
  }

  function PromptTail(language: Language): string {
    match language
    case Tamil => " க்கு முதல் உதவி அறிவுரை வழங்கவும்."
    case English => "."
  }

  /** The instruction sent to the generative model: the user's question,
      verbatim, inside a language-specific template. */
  function GeminiPrompt(userPrompt: string, language: Language): (p: string)
    ensures |p| == |PromptHead(language)| + |userPrompt| + |PromptTail(language)|
    ensures p[|PromptHead(language)|..|PromptHead(language)| + |userPrompt|] == userPrompt
    ensures PromptHead(language) <= p
    ensures p[|PromptHead(language)| + |userPrompt|..] == PromptTail(language)
  {
    PromptHead(language) + userPrompt + PromptTail(language)
  }

  // ---------------------------------------------------------------------------
  // The answer gate
  // ---------------------------------------------------------------------------

  /** A generated answer is kept only with at least this many words. */
  const MinWords := 5

  /** The answer to the user's last message: the generative model's text for
      the localized prompt when it has at least five whitespace-separated
      words, and the knowledge base's answer (or apology) otherwise. */
  function Respond(index: Index, generate: string -> string,
                   extractOne: string -> Option<Candidate>,
                   userPrompt: string, language: Language): string
    requires IsExtractOneResult(index, extractOne(Lower(userPrompt)))
  {
    var response := generate(GeminiPrompt(userPrompt, language));
    if WordCount(response) < MinWords then
      GetFirstAidResponse(index, extractOne, userPrompt, language.Name())
    else response
  }

  /** The generated text is kept verbatim exactly when it has at least five
      words; otherwise the knowledge base answers. Whatever is returned is
      the generated text, an indexed response or one of the two apologies,
      and an answer of fewer than five words always comes from the
      knowledge base. */
  lemma RespondGate(index: Index, generate: string -> string,
                    extractOne: string -> Option<Candidate>,
                    userPrompt: string, language: Language)
    requires IsExtractOneResult(index, extractOne(Lower(userPrompt)))
    ensures var generated := generate(GeminiPrompt(userPrompt, language));
      var r := Respond(index, generate, extractOne, userPrompt, language);
      var fallback := GetFirstAidResponse(index, extractOne, userPrompt, language.Name());
      (WordCount(generated) >= MinWords ==> r == generated)
      && (WordCount(generated) < MinWords ==> r == fallback)
      && (WordCount(r) < MinWords ==> r == fallback)
      && (r == generated || r in index.Values || r == TamilApology || r == EnglishApology)
  {
  }

  /** The answer is never empty as long as no indexed response is empty:
      a kept generation has words, and both apologies are non-empty. */
  lemma RespondNonEmpty(index: Index, generate: string -> string,
                        extractOne: string -> Option<Candidate>,
                        userPrompt: string, language: Language)
    requires IsExtractOneResult(index, extractOne(Lower(userPrompt)))
    requires forall k :: k in index ==> index[k] != ""
    ensures Respond(index, generate, extractOne, userPrompt, language) != ""
  {
    var generated := generate(GeminiPrompt(userPrompt, language));
    if WordCount(generated) >= MinWords {
      SplitEmptyIff(generated);
    }
  }

  /** A three-word generation such as "Apply cold water" is not kept as
      generated: the answer is whatever the knowledge base answers for the
      question (which may still be the same text, if the index holds it). */
  lemma ThreeWordGenerationDiscarded(index: Index, extractOne: string -> Option<Candidate>,
                                     userPrompt: string, language: Language)
    requires IsExtractOneResult(index, extractOne(Lower(userPrompt)))
    ensures Respond(index, _ => "Apply cold water", extractOne, userPrompt, language)
         == GetFirstAidResponse(index, extractOne, userPrompt, language.Name())
  {
    var words := ["Apply", "cold", "water"];
    assert IsWord("Apply") && IsWord("cold") && IsWord("water");
    assert Join(words) == "Apply cold water";
    SplitJoin(words);
    assert WordCount("Apply cold water") < MinWords;
    RespondGate(index, _ => "Apply cold water", extractOne, userPrompt, language);
  }

  // ---------------------------------------------------------------------------
  // Spoken queries
  // ---------------------------------------------------------------------------

  const TranslationFailed := "மன்னிக்கவும், மொழிபெயர்ப்பு தோல்வியடைந்தது."

  /** The language code the detector reports, "en" when detection fails. */
  function DetectedCode(detected: Option<string>): (code: string)
    ensures detected.None? ==> code == "en"
    ensures detected.Some? ==> code == detected.value
  {
    detected.GetOr("en")
  }

  /** The text a spoken query is submitted as. In a Tamil session whose
      transcription is not detected as Tamil ("ta") — including when
      detection fails — the text is replaced by its Tamil translation, or by a
      fixed failure message when translation fails; otherwise it is kept. */
  function VoiceText(language: Language, spoken: string,
                     detected: Option<string>, translated: Option<string>): (r: string)
    ensures language == English ==> r == spoken
    ensures language == Tamil && detected == Some("ta") ==> r == spoken
    ensures language == Tamil && detected != Some("ta") ==>
      r == translated.GetOr(TranslationFailed)
    ensures r == spoken || Some(r) == translated || r == TranslationFailed
  {
    if language.Name() == "Tamil" && DetectedCode(detected) != "ta" then
      match translated
      case Some(t) => t
      case None => TranslationFailed
    else spoken
  }
}
