/** The state of the translation page (src/app/page.tsx) and the event
    handlers that change it. Each remote call (translation, speech,
    contextual information) is a parameter holding its answer or failure,
    and each handler is the state change once that answer is in. */
module Page {
  import opened Wrappers
  import opened Strings
  import opened WordText
  import Speech

  const MaxTextLength := 5000
  const EmptyTextMessage := "Please enter some text to translate."
  const TooLongMessage := "Text cannot be longer than 5000 characters."
  const ContextFallback := "Could not retrieve contextual information for this word."
  const DefaultTargetLanguage := "English"

  /** The target languages the select offers. */
  const Languages: seq<string> := [
    "English", "Spanish", "French", "German", "Chinese (Simplified)", "Japanese", "Korean",
    "Russian", "Portuguese", "Italian", "Arabic", "Hindi", "Turkish", "Dutch", "Polish",
    "Indonesian", "Vietnamese"]

  /** The answer of a remote call, or its failure (a caught exception). */
  datatype Reply<T> = Answered(value: T) | Failed

  /** The stored result: the translation service's answer and the text it
      translated. */
  datatype Translation = Translation(translatedText: string, detectedLanguage: string, originalText: string)

  /** The input and answer of the translation service. */
  datatype TranslateInput = TranslateInput(text: string, targetLanguage: string)
  datatype TranslateOutput = TranslateOutput(translatedText: string, detectedLanguage: string)

  /** The input of the contextual-information service. */
  datatype ContextInput = ContextInput(text: string, word: string, language: string)

  /** The page's state: the form's text field and the `useState` values. */
  datatype PageState = PageState(
    text: string,
    result: Option<Translation>,
    targetLanguage: string,
    audioUrl: Option<string>,
    selectedWord: Option<string>,
    contextualInfo: Option<string>,
    isSheetOpen: bool)

  /** The state on first render. */
  function Initial(): PageState {
    PageState("", None, DefaultTargetLanguage, None, None, None, false)
  }

  // ---------------------------------------------------------------------
  // The form

  /** `formSchema`: the text is accepted exactly when it has between 1 and
      5000 characters, and otherwise rejected with the message for the bound
      it breaks. */
  function ValidateText(text: string): (r: Result<string, string>)
    ensures r.Success? <==> 1 <= |text| <= MaxTextLength
    ensures r.Success? ==> r.value == text
    ensures r.Failure? ==> r.error == (if |text| == 0 then EmptyTextMessage else TooLongMessage)
  {
    if |text| < 1 then Failure(EmptyTextMessage)
    else if |text| > MaxTextLength then Failure(TooLongMessage)
    else Success(text)
  }

  /** The bounds are inclusive. */
  lemma ValidationBoundaries()
    ensures ValidateText("") == Failure(EmptyTextMessage)
    ensures ValidateText("a").Success?
    ensures ValidateText(seq(5000, _ => 'a')).Success?
    ensures ValidateText(seq(5001, _ => 'a')) == Failure(TooLongMessage)
  {
  }

  /** What `onSubmit` sends to the translation service: the form's text and
      the selected target language. */
  function TranslateRequest(st: PageState): TranslateInput {
    TranslateInput(st.text, st.targetLanguage)
  }

  /** `onSubmit`: clears the result and the audio, then stores the answer
      to `TranslateRequest(st)` together with the text that request sent;
      after a failure there is no result. Nothing else changes. */
  function OnSubmit(st: PageState, reply: Reply<TranslateOutput>): (s: PageState)
    ensures s.audioUrl == None
    ensures s.result.Some? <==> reply.Answered?
    ensures reply.Answered? ==>
              s.result == Some(Translation(reply.value.translatedText, reply.value.detectedLanguage, TranslateRequest(st).text))
    ensures s.(result := st.result, audioUrl := st.audioUrl) == st
  {
    var cleared := st.(result := None, audioUrl := None);
    match reply
    case Answered(out) =>
      cleared.(result := Some(Translation(out.translatedText, out.detectedLanguage, st.text)))
    case Failed => cleared
  }

  /** `form.handleSubmit(onSubmit)`: an invalid text never reaches
      `onSubmit` and leaves the page as it was, so a stored translation is
      always of a valid text. */
  function SubmitForm(st: PageState, reply: Reply<TranslateOutput>): (s: PageState)
    ensures ValidateText(st.text).Failure? ==> s == st
    ensures ValidateText(st.text).Success? ==> s == OnSubmit(st, reply)
    ensures s.result != st.result ==> s.result.None? || ValidateText(s.result.value.originalText).Success?
  {
    if ValidateText(st.text).Failure? then st else OnSubmit(st, reply)
  }

  // ---------------------------------------------------------------------
  // Speaking and copying the translation

  /** `result?.translatedText` is truthy. */
  predicate HasTranslation(st: PageState) {
    st.result.Some? && st.result.value.translatedText != ""
  }

  /** What `handleSpeak` sends to the speech flow, if anything. */
  function SpeakRequest(st: PageState): (text: Option<string>)
    ensures text.Some? <==> HasTranslation(st)
    ensures text.Some? ==> text.value == st.result.value.translatedText
  {
    if HasTranslation(st) then Some(st.result.value.translatedText) else None
  }

  /** `handleSpeak` once the speech flow has answered: without a translation
      it does nothing; the answer's data URI becomes the audio URL; a
      failure changes nothing. */
  function HandleSpeak(st: PageState, tts: Result<Speech.SpeechOutput, string>): (s: PageState)
    ensures s.audioUrl != st.audioUrl ==> HasTranslation(st) && tts.Success? && s.audioUrl == Some(tts.value.media)
    ensures HasTranslation(st) && tts.Success? ==> s.audioUrl == Some(tts.value.media)
    ensures s.(audioUrl := st.audioUrl) == st
  {
    if !HasTranslation(st) then st
    else if tts.Success? then st.(audioUrl := Some(tts.value.media))
    else st
  }

  /** `handleCopy`: the text written to the clipboard, if any. */
  function HandleCopy(st: PageState): (clip: Option<string>)
    ensures clip.Some? <==> HasTranslation(st)
    ensures clip.Some? ==> clip.value != "" && clip.value == st.result.value.translatedText
  {
    if HasTranslation(st) then Some(st.result.value.translatedText) else None
  }

  // ---------------------------------------------------------------------
  // Clicking a word

  /** What `handleWordClick` sends to the contextual-information service:
      nothing when the cleaned word is empty or there is no result, else the
      original text, the cleaned word and the detected language. */
  function WordRequest(st: PageState, word: string): (req: Option<ContextInput>)
    ensures req.Some? <==> st.result.Some? && Clean(word) != []
    ensures req.Some? ==> req.value.text == st.result.value.originalText
                          && req.value.word == Clean(word)
                          && req.value.language == st.result.value.detectedLanguage
  {
    var cleanedWord := Clean(word);
    if cleanedWord == [] || st.result.None? then None
    else Some(ContextInput(st.result.value.originalText, cleanedWord, st.result.value.detectedLanguage))
  }

  /** The synchronous part of `handleWordClick`: select the cleaned word,
      clear the old information and open the sheet. */
  function OpenWord(st: PageState, word: string): (s: PageState)
    ensures s.selectedWord == Some(Clean(word)) && s.contextualInfo == None && s.isSheetOpen
    ensures s.(selectedWord := st.selectedWord, contextualInfo := st.contextualInfo, isSheetOpen := st.isSheetOpen) == st
  {
    st.(selectedWord := Some(Clean(word)), contextualInfo := None, isSheetOpen := true)
  }

  /** The continuation of `handleWordClick`: the service's answer, or the
      fixed fallback message when it failed. */
  function ShowContext(st: PageState, reply: Reply<string>): (s: PageState)
    ensures s.contextualInfo.Some?
    ensures reply.Answered? ==> s.contextualInfo == Some(reply.value)
    ensures reply.Failed? ==> s.contextualInfo == Some(ContextFallback)
    ensures s.(contextualInfo := st.contextualInfo) == st
  {
    match reply
    case Answered(info) => st.(contextualInfo := Some(info))
    case Failed => st.(contextualInfo := Some(ContextFallback))
  }

  /** `handleWordClick` from click to answer. A click that sends no request
      changes nothing; otherwise the sheet shows the cleaned word and the
      answer (or the fallback). */
  function HandleWordClick(st: PageState, word: string, reply: Reply<string>): (s: PageState)
    ensures WordRequest(st, word).None? ==> s == st
    ensures WordRequest(st, word).Some? ==>
              && s.selectedWord == Some(Clean(word)) && s.isSheetOpen
              && s.contextualInfo == Some(if reply.Answered? then reply.value else ContextFallback)
              && s.(selectedWord := st.selectedWord, contextualInfo := st.contextualInfo, isSheetOpen := st.isSheetOpen) == st
  {
    if WordRequest(st, word).None? then st else ShowContext(OpenWord(st, word), reply)
  }

  // ---------------------------------------------------------------------
  // Starting over

  /** `handleReset`: empties the form and forgets the result, the audio and
      the selected word with its information; the target language and the
      sheet stay as they were. */
  function HandleReset(st: PageState): (s: PageState)
    ensures s.text == "" && s.result == None && s.audioUrl == None
    ensures s.selectedWord == None && s.contextualInfo == None
    ensures s.targetLanguage == st.targetLanguage && s.isSheetOpen == st.isSheetOpen
  {
    st.(text := "", result := None, audioUrl := None, selectedWord := None, contextualInfo := None)
  }

  /** Resetting is returning to the first-render state, apart from the
      target language and the sheet, and resetting twice is resetting once. */
  lemma ResetIsInitial(st: PageState)
    ensures HandleReset(st) == Initial().(targetLanguage := st.targetLanguage, isSheetOpen := st.isSheetOpen)
    ensures HandleReset(HandleReset(st)) == HandleReset(st)
  {
  }

  // ---------------------------------------------------------------------
  // The page as a whole

  /** Everything that can happen on the page. A speech request carries what
      the speech model returned and the codecs of the speech flow. Clicking
      the speak, copy and reset buttons is taken not to submit the form. */
  datatype Event =
    | EditText(newText: string)
    | SelectLanguage(language: string)
    | Submit(translation: Reply<TranslateOutput>)
    | Speak(media: Option<Speech.Media>, decodeBase64: string -> seq<bv8>,
            encodeWav: (seq<bv8>, Speech.WavFormat) -> string)
    | Copy
    | ClickWord(word: string, info: Reply<string>)
    | SetSheetOpen(open: bool)
    | Reset

  function Next(st: PageState, e: Event): PageState {
    match e
    case EditText(t) => st.(text := t)
    case SelectLanguage(lang) => if lang in Languages then st.(targetLanguage := lang) else st
    case Submit(reply) => SubmitForm(st, reply)
    case Speak(media, decode, encode) =>
      if SpeakRequest(st).Some? then HandleSpeak(st, Speech.Flow(media, decode, encode)) else st
    case Copy => st
    case ClickWord(word, reply) => HandleWordClick(st, word, reply)
    case SetSheetOpen(open) => st.(isSheetOpen := open)
    case Reset => HandleReset(st)
  }

  /** What holds of every state reached by sequential events, each remote
      call answered before the next event: a stored translation is of
      a valid text; audio exists only for a translation and is a WAV data
      URI; a selected word is a non-empty cleaned word; information is shown
      only for a selected word; the target language is one the select
      offers. */
  predicate Invariant(st: PageState) {
    && (st.result.Some? ==> ValidateText(st.result.value.originalText).Success?)
    && (st.audioUrl.Some? ==> st.result.Some? && StartsWith(st.audioUrl.value, Speech.WavDataUriPrefix))
    && (st.selectedWord.Some? ==> st.selectedWord.value != [] && Clean(st.selectedWord.value) == st.selectedWord.value)
    && (st.contextualInfo.Some? ==> st.selectedWord.Some?)
    && st.targetLanguage in Languages
  }

  lemma InitialInvariant()
    ensures Invariant(Initial())
  {
  }

  /** Submitting keeps the invariant: a new result is of a valid text, and
      the audio is cleared with it. */
  lemma SubmitKeepsInvariant(st: PageState, reply: Reply<TranslateOutput>)
    requires Invariant(st)
    ensures Invariant(SubmitForm(st, reply))
  {
  }

  /** Speaking keeps the invariant: audio is only set for a translation,
      and to a WAV data URI. */
  lemma SpeakKeepsInvariant(st: PageState, media: Option<Speech.Media>,
                            decode: string -> seq<bv8>, encode: (seq<bv8>, Speech.WavFormat) -> string)
    requires Invariant(st)
    ensures Invariant(Next(st, Speak(media, decode, encode)))
  {
    if HasTranslation(st) {
      var tts := Speech.Flow(media, decode, encode);
      assert tts.Success? ==> StartsWith(tts.value.media, Speech.WavDataUriPrefix);
    }
  }

  /** Clicking a word keeps the invariant: the selected word is a
      non-empty cleaned word. */
  lemma WordClickKeepsInvariant(st: PageState, word: string, reply: Reply<string>)
    requires Invariant(st)
    ensures Invariant(HandleWordClick(st, word, reply))
  {
    CleanIdempotent(word);
  }

  /** Every event keeps the invariant. */
  lemma NextKeepsInvariant(st: PageState, e: Event)
    requires Invariant(st)
    ensures Invariant(Next(st, e))
  {
    match e
    case Submit(reply) => SubmitKeepsInvariant(st, reply);
    case Speak(media, decode, encode) => SpeakKeepsInvariant(st, media, decode, encode);
    case ClickWord(word, reply) => WordClickKeepsInvariant(st, word, reply);
    case _ =>
  }

  /** Any sequence of events from the first render keeps the invariant. */
  lemma {:induction false} RunKeepsInvariant(events: seq<Event>)
    ensures Invariant(Run(events))
    decreases |events|
  {
    if |events| == 0 {
      InitialInvariant();
    } else {
      RunKeepsInvariant(events[..|events| - 1]);
      NextKeepsInvariant(Run(events[..|events| - 1]), events[|events| - 1]);
    }
  }

  /** The state after a sequence of events from the first render. */
  function Run(events: seq<Event>): PageState
    decreases |events|
  {
    if |events| == 0 then Initial() else Next(Run(events[..|events| - 1]), events[|events| - 1])
  }
}
