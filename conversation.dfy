/** The conversation controller. The script keeps its state in six session
    fields and re-runs from the top on every interaction; each re-run does at
    most one thing (every branch that changes the state ends in a re-run), so
    the controller is a state machine whose events are those re-runs. `Step`
    and the `After...` functions say what each event does to the state;
    `Session` is the mutable session object, one method per event, proved
    against them. */
module Conversation {
  import opened Wrappers
  import opened Text
  import opened Knowledge
  import opened Pipeline

  datatype Role = User | Assistant

  /** One chat message. */
  datatype Turn = Turn(role: Role, content: string)

  /** A chosen session language together with the fixed texts the script
      shows in it; the script picks each of them by comparing the stored
      language name. */
  datatype Locale = Locale(language: Language, greeting: string, followUp: string, farewell: string)

  const EnglishGreeting := "Hello! How can I assist you?"
  const TamilGreeting := "வணக்கம்! நான் எப்படி உதவலாம்?"
  const EnglishFollowUp := "Do you have any other questions?"
  const TamilFollowUp := "உங்களுக்குத் துணை செய்ய ஏதேனும் கூடுதல் கேள்விகள் உள்ளதா?"
  const EnglishFarewell := "Okay! Stay safe and take care! 😊"
  const TamilFarewell := "சரி! பாதுகாப்பாக இருங்கள், நல்லபடியாக இருங்கள்! 😊"

  /** The texts for each language, chosen by the same tests the script makes:
      the greeting by the button pressed, the follow-up question by whether
      the stored name is "Tamil", and the farewell by whether it is
      "English". */
  function LocaleOf(language: Language): (l: Locale)
    ensures l.language == language
    ensures l.greeting == if language == English then EnglishGreeting else TamilGreeting
    ensures l.followUp == if language.Name() == "Tamil" then TamilFollowUp else EnglishFollowUp
    ensures l.farewell == if language.Name() == "English" then EnglishFarewell else TamilFarewell
  {
    match language
    case English => Locale(English, EnglishGreeting, EnglishFollowUp, EnglishFarewell)
    case Tamil => Locale(Tamil, TamilGreeting, TamilFollowUp, TamilFarewell)
  }

  /** The session fields `language`, `messages`, `awaiting_response`,
      `show_buttons`, `stop_convo` and `voice_input`. */
  datatype SessionState = SessionState(
    language: Option<Locale>,
    messages: seq<Turn>,
    awaitingResponse: bool,
    showButtons: bool,
    stopConvo: bool,
    voiceInput: Option<string>)

  /** The state the first run of the script sets up. */
  const Initial := SessionState(None, [], false, false, false, None)

  /** Python truthiness of an optional string: present and non-empty. */
  predicate Truthy(o: Option<string>) {
    o.Some? && o.value != ""
  }

  /** The input widgets are shown: a language is chosen, the conversation is
      not stopped, and neither an answer nor the Yes/No question is pending. */
  predicate AcceptsInput(s: SessionState) {
    s.language.Some? && !s.stopConvo && !s.awaitingResponse && !s.showButtons
  }

  /** A run that reaches the query-processing block. */
  predicate Processing(s: SessionState) {
    s.language.Some? && !s.stopConvo && s.awaitingResponse
  }

  /** A run that shows the Yes/No buttons. */
  predicate Asking(s: SessionState) {
    s.language.Some? && !s.stopConvo && s.showButtons
  }

  /** The last message of a non-empty transcript. */
  function Last(ms: seq<Turn>): Turn
    requires |ms| > 0
  {
    ms[|ms| - 1]
  }

  /** What processing needs: a last message to answer, and a matcher that
      behaves like `extractOne` for its lower-cased text. */
  predicate CanProcess(index: Index, s: SessionState, extractOne: string -> Option<Candidate>) {
    Processing(s) ==>
      |s.messages| > 0 && IsExtractOneResult(index, extractOne(Lower(Last(s.messages).content)))
  }

  // ---------------------------------------------------------------------------
  // The events
  // ---------------------------------------------------------------------------

  /** A language button: only while no language is chosen. */
  function AfterChoose(s: SessionState, choice: Language): SessionState {
    if s.language.None? then Chosen(s, LocaleOf(choice)) else s
  }

  /** The language button's run, once the texts of the language are chosen:
      the language is stored and its greeting becomes the first message. */
  function Chosen(s: SessionState, locale: Locale): SessionState {
    s.(language := Some(locale), messages := s.messages + [Turn(Assistant, locale.greeting)])
  }

  /** The microphone button: the prepared transcription becomes the pending
      voice input. */
  function AfterSpeak(s: SessionState, spoken: string,
                      detected: Option<string>, translated: Option<string>): SessionState
  {
    if AcceptsInput(s) then
      s.(voiceInput := Some(VoiceText(s.language.value.language, spoken, detected, translated)))
    else s
  }

  /** A run through the input block with `typed` from the chat box (`None`
      when nothing was typed). A pending voice input takes precedence and is
      cleared; a non-empty prompt becomes a user turn and an answer is awaited. */
  function AfterSubmit(s: SessionState, typed: Option<string>): SessionState {
    if !AcceptsInput(s) then s
    else
      var fromVoice := Truthy(s.voiceInput);
      var prompt := if fromVoice then s.voiceInput else typed;
      var voice := if fromVoice then None else s.voiceInput;
      if Truthy(prompt) then
        s.(voiceInput := voice, awaitingResponse := true,
           messages := s.messages + [Turn(User, prompt.value)])
      else s.(voiceInput := voice)
  }

  /** The query-processing run: the last message is answered, the follow-up
      question is asked and the Yes/No buttons are shown. */
  function AfterProcess(index: Index, s: SessionState, generate: string -> string,
                        extractOne: string -> Option<Candidate>): SessionState
    requires CanProcess(index, s, extractOne)
  {
    if Processing(s) then
      Answered(s, Respond(index, generate, extractOne, Last(s.messages).content, s.language.value.language))
    else s
  }

  /** The end of the query-processing run, once `response` is chosen. */
  function Answered(s: SessionState, response: string): SessionState
    requires s.language.Some?
  {
    s.(messages := s.messages + [Turn(Assistant, response), Turn(Assistant, s.language.value.followUp)],
       showButtons := true, awaitingResponse := false)
  }

  /** The Yes button: only the buttons go away. */
  function AfterYes(s: SessionState): SessionState {
    if Asking(s) then s.(showButtons := false) else s
  }

  /** The No button: a farewell is appended and the buttons go away; nothing
      stops the conversation, so input is accepted again. */
  function AfterNo(s: SessionState): SessionState {
    if Asking(s) then
      s.(messages := s.messages + [Turn(Assistant, s.language.value.farewell)], showButtons := false)
    else s
  }

  datatype Event =
    | ChooseLanguage(choice: Language)
    | PressSpeak(spoken: string, detected: Option<string>, translated: Option<string>)
    | ChatInput(typed: Option<string>)
    | ProcessQuery(generate: string -> string, extractOne: string -> Option<Candidate>)
    | PressYes
    | PressNo

  predicate CanStep(index: Index, s: SessionState, e: Event) {
    e.ProcessQuery? ==> CanProcess(index, s, e.extractOne)
  }

  /** One re-run of the script. */
  function Step(index: Index, s: SessionState, e: Event): SessionState
    requires CanStep(index, s, e)
  {
    match e
    case ChooseLanguage(choice) => AfterChoose(s, choice)
    case PressSpeak(spoken, detected, translated) => AfterSpeak(s, spoken, detected, translated)
    case ChatInput(typed) => AfterSubmit(s, typed)
    case ProcessQuery(generate, extractOne) => AfterProcess(index, s, generate, extractOne)
    case PressYes => AfterYes(s)
    case PressNo => AfterNo(s)
  }

  // ---------------------------------------------------------------------------
  // The invariant
  // ---------------------------------------------------------------------------

  /** Every user turn is non-empty and is followed by an answer and the
      follow-up question, except a last one that is still awaiting its answer. */
  predicate UserTurnsAnswered(ms: seq<Turn>, followUp: string, awaiting: bool) {
    forall i {:trigger ms[i]} :: 0 <= i < |ms| && ms[i].role == User ==>
      ms[i].content != "" &&
      ((awaiting && i == |ms| - 1) ||
       (i + 2 < |ms| && ms[i + 1].role == Assistant && ms[i + 2] == Turn(Assistant, followUp)))
  }

  /** The session invariant: the conversation is never stopped, the two phase
      flags exclude each other, a pending voice input exists only while input
      is accepted; once a language is chosen the transcript opens with its
      greeting, ends with the question while an answer is awaited and with
      the follow-up question while the buttons are shown, and every other
      question has been answered. */
  predicate Inv(s: SessionState) {
    !s.stopConvo
    && !(s.awaitingResponse && s.showButtons)
    && (Truthy(s.voiceInput) ==> AcceptsInput(s))
    && match s.language
       case None => s.messages == [] && !s.awaitingResponse && !s.showButtons
       case Some(locale) =>
         |s.messages| >= 1 && s.messages[0] == Turn(Assistant, locale.greeting)
         && (s.awaitingResponse ==> Last(s.messages).role == User)
         && (s.showButtons ==>
               |s.messages| >= 4 && Last(s.messages) == Turn(Assistant, locale.followUp)
               && s.messages[|s.messages| - 3].role == User)
         && UserTurnsAnswered(s.messages, locale.followUp, s.awaitingResponse)
  }

  /** The session language, once chosen, is one of the two offered, with its texts. */
  predicate Localized(s: SessionState) {
    s.language.Some? ==> s.language.value == LocaleOf(s.language.value.language)
  }

  lemma InitialInv()
    ensures Inv(Initial) && Localized(Initial) && !AcceptsInput(Initial)
  {
  }

  /** Appending assistant turns keeps every answered question answered. */
  lemma AppendAssistantKeepsAnswered(ms: seq<Turn>, more: seq<Turn>, followUp: string)
    requires UserTurnsAnswered(ms, followUp, false)
    requires forall k :: 0 <= k < |more| ==> more[k].role == Assistant
    ensures UserTurnsAnswered(ms + more, followUp, false)
  {
    var t := ms + more;
    forall i | 0 <= i < |t| && t[i].role == User
      ensures t[i].content != "" && i + 2 < |t| && t[i + 1].role == Assistant
              && t[i + 2] == Turn(Assistant, followUp)
    {
      assert i < |ms| && t[i] == ms[i];
      assert i + 2 < |ms|;
      assert t[i + 1] == ms[i + 1] && t[i + 2] == ms[i + 2];
    }
  }

  /** Appending a question to a transcript whose questions are all answered
      leaves exactly that question pending. */
  lemma AppendQuestionKeepsAnswered(ms: seq<Turn>, question: Turn, followUp: string)
    requires UserTurnsAnswered(ms, followUp, false)
    requires question.role == User && question.content != ""
    ensures UserTurnsAnswered(ms + [question], followUp, true)
  {
    var t := ms + [question];
    forall i | 0 <= i < |t| && t[i].role == User
      ensures t[i].content != "" &&
        (i == |t| - 1 || (i + 2 < |t| && t[i + 1].role == Assistant && t[i + 2] == Turn(Assistant, followUp)))
    {
      if i < |ms| {
        assert t[i] == ms[i] && ms[i].role == User;
        assert i + 2 < |ms|;
        assert t[i + 1] == ms[i + 1] && t[i + 2] == ms[i + 2];
      }
    }
  }

  /** Answering the pending question completes it. */
  lemma AnswerKeepsAnswered(ms: seq<Turn>, response: string, followUp: string)
    requires UserTurnsAnswered(ms, followUp, true)
    requires |ms| > 0 && Last(ms).role == User
    ensures UserTurnsAnswered(ms + [Turn(Assistant, response), Turn(Assistant, followUp)], followUp, false)
  {
    var t := ms + [Turn(Assistant, response), Turn(Assistant, followUp)];
    var n := |ms|;
    forall i | 0 <= i < |t| && t[i].role == User
      ensures t[i].content != "" && i + 2 < |t| && t[i + 1].role == Assistant
              && t[i + 2] == Turn(Assistant, followUp)
    {
      assert i < n && t[i] == ms[i] && ms[i].role == User;
      if i < n - 1 {
        assert i + 2 < n;
        assert t[i + 1] == ms[i + 1] && t[i + 2] == ms[i + 2];
      }
    }
  }

  /** Choosing a language keeps the invariant, whatever its texts. */
  lemma ChosenPreservesInv(s: SessionState, locale: Locale)
    requires Inv(s) && s.language.None?
    ensures Inv(Chosen(s, locale))
  {
  }

  lemma ChoosePreservesInv(s: SessionState, choice: Language)
    requires Inv(s)
    ensures Inv(AfterChoose(s, choice))
  {
    if s.language.None? {
      ChosenPreservesInv(s, LocaleOf(choice));
    }
  }

  lemma SubmitPreservesInv(s: SessionState, typed: Option<string>)
    requires Inv(s)
    ensures Inv(AfterSubmit(s, typed))
  {
    var t := AfterSubmit(s, typed);
    if AcceptsInput(s) && t.awaitingResponse {
      AppendQuestionKeepsAnswered(s.messages, Last(t.messages), s.language.value.followUp);
      assert t.messages == s.messages + [Last(t.messages)];
    }
  }

  /** The end of a processing run keeps the invariant, whatever the answer. */
  lemma AnsweredPreservesInv(s: SessionState, response: string)
    requires Inv(s) && Processing(s)
    ensures Inv(Answered(s, response))
  {
    AnswerKeepsAnswered(s.messages, response, s.language.value.followUp);
  }

  lemma ProcessPreservesInv(index: Index, s: SessionState, generate: string -> string,
                            extractOne: string -> Option<Candidate>)
    requires Inv(s) && CanProcess(index, s, extractOne)
    ensures Inv(AfterProcess(index, s, generate, extractOne))
  {
    if Processing(s) {
      var userPrompt := Last(s.messages).content;
      AnsweredPreservesInv(s, Respond(index, generate, extractOne, userPrompt, s.language.value.language));
    }
  }

  lemma YesPreservesInv(s: SessionState)
    requires Inv(s)
    ensures Inv(AfterYes(s))
  {
  }

  lemma NoPreservesInv(s: SessionState)
    requires Inv(s)
    ensures Inv(AfterNo(s))
  {
    if Asking(s) {
      var locale := s.language.value;
      AppendAssistantKeepsAnswered(s.messages, [Turn(Assistant, locale.farewell)], locale.followUp);
    }
  }

  /** Every event keeps the invariant. */
  lemma StepPreservesInv(index: Index, s: SessionState, e: Event)
    requires Inv(s) && CanStep(index, s, e)
    ensures Inv(Step(index, s, e))
  {
    match e
    case ChooseLanguage(choice) => ChoosePreservesInv(s, choice);
    case PressSpeak(_, _, _) =>
    case ChatInput(typed) => SubmitPreservesInv(s, typed);
    case ProcessQuery(generate, extractOne) => ProcessPreservesInv(index, s, generate, extractOne);
    case PressYes => YesPreservesInv(s);
    case PressNo => NoPreservesInv(s);
  }

  /** Every event keeps the session's texts those of its language. */
  lemma StepKeepsLocalized(index: Index, s: SessionState, e: Event)
    requires Localized(s) && CanStep(index, s, e)
    ensures Localized(Step(index, s, e))
  {
    StepAppendOnly(index, s, e);
  }

  // ---------------------------------------------------------------------------
  // What each event does
  // ---------------------------------------------------------------------------

  /** Across every event the transcript only grows, by at most two turns;
      `stop_convo` is never changed, and a chosen language never changes. */
  lemma StepAppendOnly(index: Index, s: SessionState, e: Event)
    requires CanStep(index, s, e)
    ensures var t := Step(index, s, e);
      s.messages <= t.messages && |t.messages| <= |s.messages| + 2
      && t.stopConvo == s.stopConvo
      && (s.language.Some? ==> t.language == s.language)
      && (s.language.None? && t.language.Some? ==>
            e.ChooseLanguage? && t.language == Some(LocaleOf(e.choice)))
  {
    match e
    case ChooseLanguage(_) =>
    case PressSpeak(_, _, _) =>
    case ChatInput(_) =>
    case ProcessQuery(_, _) =>
    case PressYes =>
    case PressNo =>
  }

  /** A language can be chosen only while none is; choosing it appends exactly
      its greeting and changes no other field. */
  lemma ChooseEffect(s: SessionState, choice: Language)
    ensures var t := AfterChoose(s, choice);
      if s.language.None? then
        t.language == Some(LocaleOf(choice))
        && t.messages == s.messages + [Turn(Assistant, LocaleOf(choice).greeting)]
        && t.awaitingResponse == s.awaitingResponse && t.showButtons == s.showButtons
        && t.stopConvo == s.stopConvo && t.voiceInput == s.voiceInput
      else t == s
  {
  }

  /** Choosing English on a fresh session gives the one-turn transcript with the
      English greeting, after which input is accepted. */
  lemma ChooseEnglishOnFreshSession()
    ensures AfterChoose(Initial, English).messages == [Turn(Assistant, "Hello! How can I assist you?")]
    ensures AcceptsInput(AfterChoose(Initial, English))
  {
  }

  /** Input is taken only while accepted. A pending non-empty voice input
      overrides the typed text and is cleared; an empty prompt changes nothing
      else; otherwise exactly one user turn carrying the prompt is appended
      and an answer is awaited. */
  lemma SubmitEffect(s: SessionState, typed: Option<string>)
    ensures var t := AfterSubmit(s, typed);
      var prompt := if Truthy(s.voiceInput) then s.voiceInput else typed;
      (!AcceptsInput(s) ==> t == s)
      && (AcceptsInput(s) && Truthy(s.voiceInput) ==> t.voiceInput == None)
      && (AcceptsInput(s) && !Truthy(prompt) ==> t == s)
      && (AcceptsInput(s) && Truthy(prompt) ==>
            t.messages == s.messages + [Turn(User, prompt.value)]
            && t.awaitingResponse && !t.showButtons && t.language == s.language)
  {
  }

  /** A re-run with nothing typed and no pending voice input changes nothing. */
  lemma IdleRunChangesNothing(s: SessionState)
    requires !Truthy(s.voiceInput)
    ensures AfterSubmit(s, None) == s
  {
  }

  /** Pressing the microphone button and the re-run that follows submit the
      prepared transcription as exactly one user turn (when it is non-empty). */
  lemma SpeakThenRerun(s: SessionState, spoken: string, detected: Option<string>,
                       translated: Option<string>, typed: Option<string>)
    requires AcceptsInput(s)
    ensures var text := VoiceText(s.language.value.language, spoken, detected, translated);
      var t := AfterSubmit(AfterSpeak(s, spoken, detected, translated), typed);
      text != "" ==>
        t.messages == s.messages + [Turn(User, text)] && t.voiceInput == None && t.awaitingResponse
  {
  }

  /** Processing answers the content of the last message: exactly two
      assistant turns are appended, the answer for it and the localized
      follow-up question; the buttons are shown and no answer is awaited. */
  lemma ProcessEffect(index: Index, s: SessionState, generate: string -> string,
                      extractOne: string -> Option<Candidate>)
    requires Inv(s) && CanProcess(index, s, extractOne)
    ensures var t := AfterProcess(index, s, generate, extractOne);
      (!Processing(s) ==> t == s)
      && (Processing(s) ==>
            var locale := s.language.value;
            var question := Last(s.messages);
            question.role == User
            && t.messages == s.messages + [Turn(Assistant, Respond(index, generate, extractOne, question.content, locale.language)),
                                            Turn(Assistant, locale.followUp)]
            && t.showButtons && !t.awaitingResponse && t.language == s.language)
  {
  }

  /** Yes hides the buttons and leaves the transcript unchanged; No appends
      exactly one localized farewell and hides the buttons. Both are ignored
      unless the buttons are shown. */
  lemma YesNoEffect(s: SessionState)
    ensures var y := AfterYes(s);
      y.messages == s.messages
      && (Asking(s) ==> !y.showButtons) && (!Asking(s) ==> y == s)
    ensures var n := AfterNo(s);
      (Asking(s) ==> n.messages == s.messages + [Turn(Assistant, s.language.value.farewell)] && !n.showButtons)
      && (!Asking(s) ==> n == s)
  {
  }

  /** The conversation never gets stuck, and saying No does not end it: from
      any reachable state with a chosen language, the processing run followed
      by No leads to a state that accepts input again. */
  lemma NoLeadsBackToInput(index: Index, s: SessionState, generate: string -> string,
                           extractOne: string -> Option<Candidate>)
    requires Inv(s) && s.language.Some? && CanProcess(index, s, extractOne)
    ensures AcceptsInput(AfterNo(AfterProcess(index, s, generate, extractOne)))
  {
    ProcessPreservesInv(index, s, generate, extractOne);
  }

  // ---------------------------------------------------------------------------
  // The session object
  // ---------------------------------------------------------------------------

  /** The session state the script mutates field by field, one method per event. */
  class Session {
    var language: Option<Locale>
    var messages: seq<Turn>
    var awaitingResponse: bool
    var showButtons: bool
    var stopConvo: bool
    var voiceInput: Option<string>

    function State(): SessionState
      reads this
    {
      SessionState(language, messages, awaitingResponse, showButtons, stopConvo, voiceInput)
    }

    ghost predicate Valid()
      reads this
    {
      Inv(State())
    }

    constructor ()
      ensures Valid() && State() == Initial
    {
      messages := [];
      language := None;
      awaitingResponse := false;
      showButtons := false;
      stopConvo := false;
      voiceInput := None;
    }

    method Choose(choice: Language)
      requires Valid()
      modifies this
      ensures Valid()
      ensures State() == AfterChoose(old(State()), choice)
    {
      if language.None? {
        ghost var before := State();
        var locale := LocaleOf(choice);
        ChosenPreservesInv(before, locale);
        language := Some(locale);
        messages := messages + [Turn(Assistant, locale.greeting)];
        assert State() == Chosen(before, locale);
      }
    }

    method Speak(spoken: string, detected: Option<string>, translated: Option<string>)
      requires Valid()
      modifies this
      ensures Valid()
      ensures State() == AfterSpeak(old(State()), spoken, detected, translated)
    {
      if language.Some? && !stopConvo && !awaitingResponse && !showButtons {
        var text := VoiceText(language.value.language, spoken, detected, translated);
        voiceInput := Some(text);
      }
    }

    method Submit(typed: Option<string>)
      requires Valid()
      modifies this
      ensures Valid()
      ensures State() == AfterSubmit(old(State()), typed)
    {
      SubmitPreservesInv(State(), typed);
      if language.Some? && !stopConvo && !awaitingResponse && !showButtons {
        var prompt := typed;
        if voiceInput.Some? && voiceInput.value != "" {
          prompt := voiceInput;
          voiceInput := None;
        }
        if prompt.Some? && prompt.value != "" {
          awaitingResponse := true;
          messages := messages + [Turn(User, prompt.value)];
        }
      }
    }

    method ProcessQuery(index: Index, generate: string -> string,
                        extractOne: string -> Option<Candidate>)
      requires Valid() && CanProcess(index, State(), extractOne)
      modifies this
      ensures Valid()
      ensures State() == AfterProcess(index, old(State()), generate, extractOne)
    {
      ghost var before := State();
      if language.Some? && !stopConvo && awaitingResponse {
        var userPrompt := messages[|messages| - 1].content;
        var locale := language.value;
        var response := Respond(index, generate, extractOne, userPrompt, locale.language);
        messages := messages + [Turn(Assistant, response), Turn(Assistant, locale.followUp)];
        showButtons := true;
        awaitingResponse := false;
        AnsweredPreservesInv(before, response);
        assert State() == Answered(before, response);
      }
    }

    method Yes()
      requires Valid()
      modifies this
      ensures Valid()
      ensures State() == AfterYes(old(State()))
    {
      if language.Some? && !stopConvo && showButtons {
        showButtons := false;
      }
    }

    method No()
      requires Valid()
      modifies this
      ensures Valid()
      ensures State() == AfterNo(old(State()))
    {
      NoPreservesInv(State());
      if language.Some? && !stopConvo && showButtons {
        var finalMessage := language.value.farewell;
        messages := messages + [Turn(Assistant, finalMessage)];
        showButtons := false;
      }
    }
  }
}
