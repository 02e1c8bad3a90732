# tts: a verified model of a browser text-to-speech panel

`tts.js` drives a small text-to-speech control panel. It reads the host engine's
voices and derives the list of distinct language tags from them. The user picks a
language. The panel then offers the voices whose primary subtag (the text before
the first `-`) matches that language. A speak button submits, pauses and resumes an
utterance, and a stop button cancels it. The utterance's callbacks keep a pause
flag and the button text up to date.

The model keeps the script's module-level variables as the fields of one class,
`Tts.Session`. The browser is replaced by abstract state:

- voices are `(name, lang)` records;
- the feedback line is a log of messages with their severity;
- the engine is a log of the requests made to it (`speak`, `pause`, `resume`, `cancel`);
- the engine's `speaking` flag is an input to `Speak`.

A "change" event that the script dispatches is modelled as a direct call of the
handler it reaches. A freshly repopulated `<select>` reports its first option
(value `"0"`), or `""` when it has no options. The script calls `getVoiceList` once
while it loads (tts.js:152, reached from tts.js:174), before it attaches the select
handlers (tts.js:209-230). A change dispatched during that call reaches no handler.
The session records this in `handlersAttached`, and `AttachHandlers` sets it.

Modules:

- `Catalogue` (catalogue.dfy): voices and languages; the reference definition
  `Languages` of the language list; the nested dedup loop `DeriveLanguages` proved
  against it; the document-language search `FindLanguage`.
- `Filtering` (filtering.dfy): `String.prototype.split` for one separator, with its
  round trips against `join`; the primary subtag; the `filterVoices` predicate; and
  `voices.filter(filterVoices)`.
- `Utterances` (utterance.dfy): the utterance object and `addUtteranceText`.
- `Tts` (session.dfy): the session state with its consistency invariant `Valid()`,
  the change handlers, `speak`, the stop handler and the utterance callbacks.
- `Scenarios` (scenarios.dfy): example sessions, checked against the contracts.

Points of the code's behaviour that the model keeps:

- `getVoiceList` assigns the host's list to `voices` even when it is empty
  (tts.js:137). Only the language list and the selection are left alone.
- A bare tag such as `en` matches `en-US`, because both split to `en` (tts.js:188-190).
- Selecting a language does not clear the voice when some voice matches. The
  repopulated voice select fires "change", and this selects the first matching voice
  (tts.js:206). When none matches, the voice becomes unset. That happens, for
  example, after a delivery with no voices: the handler reads `filteredVoices[""]`,
  stores `undefined` and throws at `.name` (tts.js:218-219).
- Voices delivered during the load-time call fill the language list but select
  nothing. `selectedLang`, `filteredVoices` and `selectedVoice` keep their initial
  values, and no "Selected language" message is written.
- The stop handler only cancels the engine and reports. The pause flag and the button
  text change only when the engine later calls `onend`.
- There is no Idle/Speaking/Paused state variable. `speak` decides from the engine's
  `speaking` flag and the `utterancePaused` flag.

## Model

| member | source | states |
|---|---|---|
| Catalogue.DeriveLanguages | tts.js:102-122 | the nested loop with `flag` and `ll` builds exactly the reference language list of the voices |
| Catalogue.LanguagesCover | tts.js:108-122 | every voice's tag is in the language list, and every entry is some voice's tag |
| Catalogue.LanguagesDistinct | tts.js:109-120 | no tag is pushed twice |
| Catalogue.LanguagesLength | tts.js:102-122 | the list is no longer than the voice list, and is empty exactly when there are no voices |
| Catalogue.LanguagesOrder | tts.js:108-122 | entries are in the order of each tag's first occurrence among the voices |
| Catalogue.FirstIndex | tts.js:108-122 | helper for `LanguagesOrder`: the position of a tag's first occurrence among the voices (a hit, with no hit before it, or the list's length when absent); it defines the order in which the outer loop meets each tag, not the inner loop's search of `languages` |
| Catalogue.FindLanguage | tts.js:322-334 | an empty document language finds nothing; otherwise the result is the first entry with that name, or none when no entry has it |
| Filtering.Split | tts.js:188-189 | `split('-')` yields at least one piece, and no piece contains the separator |
| Filtering.JoinSplit | tts.js:188-189 | joining the pieces of a split restores the string |
| Filtering.SplitJoin | tts.js:188-189 | splitting a join of separator-free pieces restores the pieces |
| Filtering.PrimarySubtag | tts.js:188-190 | `split('-')[0]` is the prefix up to the first `-`, or the whole tag when it has none |
| Filtering.PrimarySubtagUnique | tts.js:188-190 | that prefix is the only one free of `-` that ends at a `-` or at the end |
| Filtering.FilterVoice | tts.js:185-192 | a voice is kept iff a language is selected and both primary subtags are equal; with none selected, nothing is kept |
| Filtering.FilterVoiceExamples | tts.js:185-192 | `en-GB` and bare `en` match `en-US`, `EN-us` does not (case-sensitive), and no selection matches nothing |
| Filtering.Filtered | tts.js:201 | the filtered list holds exactly the kept voices, is no longer than the input, and is empty with no selected language |
| Filtering.FilteredAppend | tts.js:201 | filtering keeps the voices' order: it distributes over concatenation |
| Filtering.FilteredCount | tts.js:201 | each kept voice occurs as often as in the input, and each rejected voice not at all |
| Filtering.FilteredCatalogueNonEmpty | tts.js:201-206 | a language taken from the catalogue always offers at least one voice |
| Utterances.Spliced | tts.js:347-351 | "pre" puts the text, a space and the old text; anything else puts the old text, a space and the text; the length grows by the text's length plus one |
| Utterances.SplicedExamples | tts.js:345-353 | "Hello" before "world" is "Hello world", and after it is "world Hello" |
| Utterances.AddUtteranceText | tts.js:345-353 | only the utterance's text changes, to the spliced text, and the same object is returned |
| Tts.Session.constructor | tts.js:15-31 | the initial values of the module variables: empty lists, no selection, pitch 0..2 at 1, rate 0..10 at 1, not paused |
| Tts.Session.AttachHandlers | tts.js:209-230 | after the script attaches its handlers, dispatched changes reach them; the selection stays consistent |
| Tts.Session.GetVoiceList | tts.js:135-143 | stores the host's voices; with none, only reports "No voices were found."; otherwise replaces the catalogue by the voices' languages, so a repeat call gives the same catalogue; once the handlers are attached it also selects the first entry and that entry's first voice, and before that it selects nothing and writes nothing |
| Tts.Session.ShowAvailableLanguages | tts.js:100-129 | the catalogue becomes the voices' language list; with handlers attached the first language is selected with a non-empty voice list, and without them the selection and messages are unchanged |
| Tts.Session.SelectLanguage | tts.js:209-214 | the chosen entry becomes the selected language, reported, and the voices are refiltered for it; keeps `Valid()` |
| Tts.Session.ShowAvailableVoices | tts.js:198-207 | the offered voices are the voices filtered by the selected language; the first is selected, or none when the list is empty |
| Tts.Session.SelectVoice | tts.js:216-220 | the chosen offered voice becomes the selected voice and is reported; the selection is then consistent |
| Tts.Session.SetPitch | tts.js:222-225 | stores the control's value unclamped; the range is unchanged |
| Tts.Session.SetRate | tts.js:227-230 | stores the control's value unclamped; the range is unchanged |
| Tts.Session.SetUtterance | tts.js:238-245 | a fresh utterance with the text, the selected voice, its tag and the stored pitch and rate |
| Tts.Session.SpeakUtterance | tts.js:276-280 | appends exactly one submission of such an utterance to the engine requests |
| Tts.Session.Speak | tts.js:286-301 | while speaking, requests only resume when paused and only pause otherwise; when not speaking, submits one utterance if a voice is selected, and otherwise submits nothing and warns "Select a voice first." |
| Tts.Session.Stop | tts.js:309-313 | requests cancel and reports; nothing else changes |
| Tts.Session.OnStart | tts.js:246-249 | the button reads "Pause"; the pause flag is untouched |
| Tts.Session.OnPause | tts.js:250-254 | paused, and the button reads "Speak" |
| Tts.Session.OnResume | tts.js:255-259 | not paused, and the button reads "Pause" |
| Tts.Session.OnEnd | tts.js:260-264 | not paused, and the button reads "Speak" |
| Tts.Session.OnError | tts.js:265-267 | only reports; the pause flag and the button text are unchanged |
| Tts.Session.SetDocLanguage | tts.js:319-335 | a document language present in the catalogue is selected as by the user once the handlers are attached; an empty or absent one, or a call before the handlers exist, changes nothing |
| Scenarios.ThreeLanguages | tts.js:102-122 | voices tagged en-US, en-GB, fr-FR give those three languages in that order |
| Scenarios.EnglishVoices | tts.js:185-201 | selecting en-US offers the en-US and en-GB voices, in order, and not the fr-FR one |

## Left out

- DOM work is not modelled: `setFeedback`'s class-name building, `populateDropDown`,
  `dispatchEvent`, `getElementById` and the event wiring (tts.js:40-94). Feedback is a
  message log with its severity, and a dispatched "change" is a direct call of the handler.
- The startup probes are not modelled: `navigator.onLine`, the `window.speechSynthesis`
  check, and registering `getVoiceList` as `onvoiceschanged` (tts.js:149-177). They are
  browser feature detection and asynchronous notification.
- The engine itself is not modelled. `speak`, `pause`, `resume` and `cancel` are
  recorded requests. Its `speaking` flag is a parameter of `Speak`. Its voice list is a
  parameter of `GetVoiceList`. The text to speak, read from the page in `speakUtterance`,
  is a parameter.
- The utterance callbacks are per-utterance closures in the source. Here they are
  session methods, which the host is assumed to call for the current utterance.
- Pitch and rate are opaque values. The numeric literals of the source and the strings
  the controls report are both kept as `Level`, and nothing is computed on them.
- The index lookups `languages[this.value]` and `filteredVoices[this.value]` depend on
  the selects' DOM state. For a user's choice they are a `requires` on the index. For
  a repopulated select, value `""` reads `undefined`. The handler then throws at `.name`
  after storing it, and the model stores `None` and writes no message.
- In `setDocLanguage`, the assignment of the raw tag string to `selectedLang`
  (tts.js:328) is not modelled. The dispatched change handler overwrites it at once.
  Before the handlers are attached it would stay, as a string. Nothing in the script
  calls `setDocLanguage`.
- The initial text of the speak button comes from the page, not the script. It is a
  constructor parameter.
- Tts.Session.ShowAvailableLanguages: with no voices, `Valid()` is not promised. The
  handler clears `selectedLang` and throws before refiltering. The only caller,
  `getVoiceList`, never reaches that case.
