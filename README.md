# Dr.Aidy first-aid chatbot — decision logic in Dafny

Dr.Aidy is a single Streamlit script (`app.py`) that answers first-aid questions
in English or Tamil. Under its user interface sit three small pieces of logic,
and this project models and verifies them:

- **Knowledge base** (`knowledge.dfy`, module `Knowledge`). The intent dataset is
  turned into `conditions_dict`. That dictionary maps every pattern, lower-cased,
  to the first response of its intent. `get_first_aid_response` asks a fuzzy
  matcher for the best key of that dictionary. It answers with that key's
  response only when the score is strictly above 60, and with a fixed apology in
  the session language otherwise.
- **Answer pipeline** (`pipeline.dfy`, module `Pipeline`). The last user message
  is wrapped in a localized prompt for the generative model. The generated text
  is kept only when it has at least five whitespace-separated words; otherwise
  the knowledge base answers. A spoken query in a Tamil session that is not
  detected as Tamil is replaced by its translation, or by a fixed failure message.
- **Conversation controller** (`conversation.dfy`, module `Conversation`). The six
  session fields are `language`, `messages`, `awaiting_response`, `show_buttons`,
  `stop_convo` and `voice_input`. Every state-changing branch of the script ends
  in a re-run, so each re-run is one event: choose a language, press the
  microphone, submit input, process the query, Yes and No. `Step` and the
  `After...` functions specify these events as a reducer. `Session` is the mutable
  session object, with one method per event proved against them. `Inv` is the
  session invariant and is preserved by every event.

Python's `str.split()` and `str.lower()` are modelled in `text.dfy` (module
`Text`). `wrappers.dfy` holds the `Option` type.

The generative model, the fuzzy matcher, the language detector and the translator
are parameters of the model. They are described under "Left out".

## Model

| member | source | states |
|---|---|---|
| Text.Split | app.py:186 | `response.split()`: every word is non-empty and contains no whitespace character (Python's `str.isspace` set) |
| Text.WordCount | app.py:186 | no contract of its own: `len(response.split())`, the number of words `Split` returns; characterised through SplitJoin and SplitEmptyIff |
| Text.SplitEmptyIff | app.py:186 | a text splits into no words exactly when it consists only of whitespace |
| Text.SplitJoin | app.py:186 | splitting words joined by single spaces gives back exactly those words (so the word count of such a text is the number of words) |
| Text.Lower | app.py:55 | `str.lower()` keeps the length and lower-cases each character on its own; no upper-case letter survives, and other characters are unchanged |
| Knowledge.BuildIndex | app.py:49-51 | the dictionary build fails (a response list is indexed when empty) exactly when some intent has patterns but no responses; otherwise its keys are exactly the lower-cased patterns of all intents |
| Knowledge.IndexLastWins | app.py:49-51 | a key maps to the first response of the last intent, in dataset order, that has a pattern lower-casing to it |
| Knowledge.IndexKeysLowered | app.py:49-51 | every key of the dictionary is already lower-case |
| Knowledge.Apology | app.py:61 | the Tamil apology is returned exactly when the language is "Tamil", and the English one for every other value |
| Knowledge.GetFirstAidResponse | app.py:54-61 | the indexed answer of the best key exactly when a candidate exists with score > 60; the localized apology for no candidate or a score ≤ 60 (so an empty index always gives the apology); the result is always an index value or one of the two apologies |
| Pipeline.Language.Name | app.py:106-111 | the stored language value is "English" or "Tamil", one per button |
| Pipeline.GeminiPrompt | app.py:179-182 | the prompt is the language's fixed head, the user's question verbatim, then the language's fixed tail |
| Pipeline.Respond | app.py:184-187 | no contract of its own: the generation for the localized prompt, replaced by the resolver's answer below five words; its properties are stated in RespondGate |
| Pipeline.RespondGate | app.py:184-187 | the generated text is returned verbatim exactly when it has at least 5 words, and the resolver's answer otherwise; a returned answer of fewer than 5 words is the resolver's; the answer is the generated text, an index value or an apology |
| Pipeline.RespondNonEmpty | app.py:184-187 | when no indexed response is empty, the answer is never empty |
| Pipeline.ThreeWordGenerationDiscarded | app.py:186-187 | for the three-word generation "Apply cold water" the answer is the resolver's result for the question, not the generation as such (the two coincide only when the index holds that text) |
| Pipeline.DetectedCode | app.py:149-152 | a failed language detection counts as "en" |
| Pipeline.VoiceText | app.py:154-160 | the transcription is kept in an English session, and in a Tamil session detected as "ta"; in a Tamil session detected otherwise (detection failure included) it becomes the translation, or the fixed failure message when translation fails |
| Conversation.AfterChoose | app.py:102-112 | no contract of its own: the language buttons, a no-op once a language is set; effect stated in ChooseEffect |
| Conversation.AfterSpeak | app.py:143-163 | no contract of its own: the microphone button stores the prepared text as the pending voice input while input is accepted, a no-op otherwise |
| Conversation.AfterSubmit | app.py:136-173 | no contract of its own: the input block, a no-op unless input is accepted; effect stated in SubmitEffect |
| Conversation.AfterProcess | app.py:176-196 | no contract of its own: the query-processing block, a no-op unless an answer is awaited; effect stated in ProcessEffect |
| Conversation.AfterYes | app.py:199-205 | no contract of its own: the Yes button, a no-op unless the buttons are shown; effect stated in YesNoEffect |
| Conversation.AfterNo | app.py:207-213 | no contract of its own: the No button, a no-op unless the buttons are shown; effect stated in YesNoEffect |
| Conversation.Step | app.py:93-213 | no contract of its own: one re-run of the script per event, a no-op when the event's guard fails; invariants stated in StepPreservesInv, StepAppendOnly and StepKeepsLocalized |
| Conversation.LocaleOf | app.py:106-112 | the greeting is the one of the button pressed (lines 108 and 112); the follow-up question is the Tamil one exactly when the stored name is "Tamil" (line 191); the farewell is the English one exactly when it is "English" (line 210) |
| Conversation.InitialInv | app.py:93-99 | the freshly initialised session satisfies the invariant and accepts no input before a language is chosen |
| Conversation.ChoosePreservesInv | app.py:102-112 | choosing a language keeps the session invariant |
| Conversation.SubmitPreservesInv | app.py:166-173 | submitting input keeps the session invariant: the new user turn is non-empty and is the one awaiting an answer |
| Conversation.AnsweredPreservesInv | app.py:189-195 | appending any answer and the follow-up question to an awaited question keeps the invariant |
| Conversation.ProcessPreservesInv | app.py:176-196 | the query-processing run keeps the session invariant |
| Conversation.YesPreservesInv | app.py:199-205 | Yes keeps the session invariant |
| Conversation.NoPreservesInv | app.py:207-213 | No keeps the session invariant |
| Conversation.StepPreservesInv | app.py:93-213 | every event keeps the invariant: `stop_convo` stays false; `awaiting_response` and `show_buttons` never hold together; a pending voice input exists only while input is accepted; the transcript opens with the greeting; every user question is non-empty and is followed by an answer and the follow-up question, except the one being awaited |
| Conversation.StepKeepsLocalized | app.py:102-112 | every event keeps the session's texts equal to those of its chosen language |
| Conversation.StepAppendOnly | app.py:93-213 | across every event the transcript only grows, by at most two turns; `stop_convo` never changes; a chosen language never changes, and only the language buttons set one |
| Conversation.ChooseEffect | app.py:102-112 | a language can be chosen only while none is set; choosing it appends exactly its greeting, and every other field is unchanged |
| Conversation.ChooseEnglishOnFreshSession | app.py:106-108 | choosing English in a fresh session gives the single turn "Hello! How can I assist you?", after which input is accepted |
| Conversation.SubmitEffect | app.py:136-173 | input is taken only when a language is set and neither flag is raised; a pending non-empty voice input overrides the typed text and is cleared; an empty prompt changes nothing; otherwise exactly one user turn with the prompt is appended and an answer is awaited |
| Conversation.IdleRunChangesNothing | app.py:166-173 | a re-run with nothing typed and no pending voice input leaves the session unchanged |
| Conversation.SpeakThenRerun | app.py:145-173 | when the prepared spoken text is non-empty, pressing the microphone button and the re-run after it append it as exactly one user turn and clear the voice input (an empty text stays pending as `""` and nothing is appended) |
| Conversation.ProcessEffect | app.py:176-196 | processing runs only while an answer is awaited and answers the content of the last message, which is a user turn; it appends exactly two assistant turns, the answer and then the localized follow-up question; it shows the buttons and clears `awaiting_response` |
| Conversation.YesNoEffect | app.py:199-213 | Yes clears `show_buttons` and leaves the transcript unchanged; No appends exactly one localized farewell and clears `show_buttons`; both do nothing unless the buttons are shown |
| Conversation.NoLeadsBackToInput | app.py:207-213 | No does not end the conversation (nothing sets `stop_convo`, lines 98 and 132-133): after an answer and No, input is accepted again |
| Conversation.Session.constructor | app.py:93-99 | the session starts with no language, an empty transcript, both flags down, `stop_convo` false and no voice input |
| Conversation.Session.Choose | app.py:102-112 | the language buttons, in place: the new state is `AfterChoose` of the old one, and the invariant is kept |
| Conversation.Session.Speak | app.py:143-163 | the microphone button, in place: the new state is `AfterSpeak` of the old one, and the invariant is kept |
| Conversation.Session.Submit | app.py:136-173 | the input block, in place: the new state is `AfterSubmit` of the old one, and the invariant is kept |
| Conversation.Session.ProcessQuery | app.py:176-196 | the query-processing block, in place: the new state is `AfterProcess` of the old one, and the invariant is kept |
| Conversation.Session.Yes | app.py:199-205 | the Yes button, in place: the new state is `AfterYes` of the old one, and the invariant is kept |
| Conversation.Session.No | app.py:207-213 | the No button, in place: the new state is `AfterNo` of the old one, and the invariant is kept |

## Left out

- The user interface is not modelled: page configuration, header, CSS, transcript rendering, columns, button labels and placeholders (app.py:83-90, 115-129, 137, 143, 202, 208). The `st.rerun()`/`st.stop()` control flow is modelled only as one event per re-run. A re-run in which no language button is pressed changes nothing.
- `recognize_speech` (app.py:64-80) is not modelled: microphone capture and Google speech recognition are audio I/O. Its result, including its localized error texts, is the `spoken` parameter.
- The generative model (app.py:31-46, 184) is a network service. Its text for the prompt is the function parameter `generate`. The call cannot fail in the model, and the `""` branch for a missing model is not modelled, since the model object always exists.
- `process.extractOne` (app.py:56) is a foreign library. It is the function parameter `extractOne`, constrained by `IsExtractOneResult` to return nothing exactly when the index is empty, and otherwise one of its keys with a score from 0 to 100. Its scoring and its tie-breaking are not modelled.
- `langdetect.detect` and `GoogleTranslator` (app.py:150, 157) are foreign calls. They are the `Option` parameters `detected` and `translated`, where `None` stands for the call raising.
- Loading `intents.json`, `.env` and the NLTK tokenizer (app.py:20-33) is file I/O. The intents are a sequence of `Intent` records.
- The `user_input` session key (app.py:17-18) is never used again, so it is not modelled.
- Text.Lower: only ASCII and Latin-1 upper-case letters are mapped. Python's full Unicode case mapping is not modelled, nor are the few characters that lower-case to more than one character.
- The session stores the chosen language together with its fixed texts (`Locale`) rather than only its name; `LocaleOf` picks the texts with the script's own tests on the name, and StepKeepsLocalized keeps the stored texts equal to them.
- `app.py` has no terminal state after No (nothing sets `stop_convo`, and No only hides the buttons), no "clear" command, no guard around the generator call and no persistence of queries, so the model has none of them either.
