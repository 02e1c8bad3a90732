/**
 * The module-level state of tts.js and the handlers that change it: the voice
 * catalogue, the language and voice selection, pitch and rate, the pause flag
 * and label of the speak button, the feedback line and the requests made to the
 * host speech engine. Dispatching a "change" event is modelled as a direct call
 * of the handler it reaches.
 */
module Tts {
  import opened Wrappers
  import opened Catalogue
  import opened Filtering
  import opened Utterances

  /** The style argument of `setFeedback`: none, 'warning' or 'error'. */
  datatype Severity = Plain | Warning | Error

  /** One message written to the feedback line. */
  datatype Feedback = Feedback(message: string, severity: Severity)

  /** A request to the host engine: `speak(u)`, `pause()`, `resume()` or `cancel()`. */
  datatype Request = Submit(utterance: Utterance) | PauseRequest | ResumeRequest | CancelRequest

  /** The `pitch` and `rate` records: the range the controls advertise and the stored value. */
  datatype Setting = Setting(minimum: int, maximum: int, selected: Level)

  function LanguageMessage(l: Language): (f: Feedback)
  {
    Feedback("Selected language: " + l.name + ".", Plain)
  }

  function VoiceMessage(v: Voice): (f: Feedback)
  {
    Feedback("Selected voice: " + v.name + ".", Plain)
  }

  class Session {
    var languages: seq<Language>
    var selectedLang: Option<Language>
    var voices: seq<Voice>
    var filteredVoices: seq<Voice>
    var selectedVoice: Option<Voice>
    var pitch: Setting
    var rate: Setting
    var paused: bool
    /** The text of the speak button. */
    var buttonText: string
    /** Every message written to the feedback line, oldest first. */
    var messages: seq<Feedback>
    /** Every request made to the host engine, oldest first. */
    var requests: seq<Request>
    /**
     * Whether the "change" handlers of the selects are attached. The script
     * attaches them only after its first call of `getVoiceList`, so a change
     * dispatched during that call reaches no handler.
     */
    var handlersAttached: bool

    /**
     * The offered voices are consistent: they match the selected language, the
     * selected language is in the catalogue, and before the handlers are
     * attached nothing is selected or offered.
     */
    ghost predicate OffersMatch()
      reads this
    {
      (forall v :: v in filteredVoices ==> FilterVoice(selectedLang, v)) &&
      (selectedLang.Some? ==> selectedLang.value in languages) &&
      (!handlersAttached ==> selectedLang == None && filteredVoices == [])
    }

    /** The selection is consistent: the offered voices match, and the selected voice is one of them. */
    ghost predicate Valid()
      reads this
    {
      OffersMatch() &&
      (selectedVoice.Some? ==> selectedVoice.value in filteredVoices)
    }

    /**
     * The state right after the language change handler ran for `l`: `l` is
     * selected, the voices are filtered by it, the first of them (if any) is
     * selected, and the two feedback messages were written after `before`.
     * With no matching voice the voice handler reads `filteredVoices[""]`,
     * stores `undefined` and throws at `.name`, so no second message follows.
     */
    ghost predicate LanguageChanged(l: Language, before: seq<Feedback>)
      reads this
    {
      selectedLang == Some(l) &&
      filteredVoices == Filtered(voices, Some(l)) &&
      if |filteredVoices| > 0 then
        selectedVoice == Some(filteredVoices[0]) &&
        messages == before + [LanguageMessage(l), VoiceMessage(filteredVoices[0])]
      else
        selectedVoice == None && messages == before + [LanguageMessage(l)]
    }

    /** The fields `u` was built with by `setUtterance(text)`. */
    ghost predicate BuiltFrom(u: Utterance, text: string)
      reads this, u
    {
      selectedVoice.Some? &&
      u.text == text && u.lang == selectedVoice.value.lang && u.voice == selectedVoice.value &&
      u.pitch == pitch.selected && u.rate == rate.selected
    }

    /** The initial values of the module-level variables; the button text comes from the page. */
    constructor (pageLabel: string)
      ensures languages == [] && selectedLang == None && voices == [] && filteredVoices == []
      ensures selectedVoice == None && !paused && buttonText == pageLabel
      ensures pitch == Setting(0, 2, Number(1)) && rate == Setting(0, 10, Number(1))
      ensures messages == [] && requests == [] && !handlersAttached
      ensures Valid()
    {
      languages := [];
      selectedLang := None;
      voices := [];
      filteredVoices := [];
      selectedVoice := None;
      pitch := Setting(0, 2, Number(1));
      rate := Setting(0, 10, Number(1));
      paused := false;
      buttonText := pageLabel;
      messages := [];
      requests := [];
      handlersAttached := false;
    }

    /** The script's `addEventListener` calls for the two selects and the pitch and rate controls. */
    method AttachHandlers()
      requires Valid()
      modifies this`handlersAttached
      ensures handlersAttached && Valid()
    {
      handlersAttached := true;
    }

    /**
     * `getVoiceList`: store the host's voices and rebuild the catalogue when
     * there are any. Only once the handlers are attached does the rebuild go on
     * to select the first language and its first voice.
     */
    method GetVoiceList(hostVoices: seq<Voice>)
      requires Valid()
      modifies this`voices, this`languages, this`selectedLang, this`filteredVoices, this`selectedVoice, this`messages
      ensures Valid() && voices == hostVoices
      ensures hostVoices == [] ==>
        languages == old(languages) && selectedLang == old(selectedLang) &&
        filteredVoices == old(filteredVoices) && selectedVoice == old(selectedVoice) &&
        messages == old(messages) + [Feedback("No voices were found.", Plain)]
      ensures hostVoices != [] ==> languages == Languages(hostVoices)
      ensures hostVoices != [] && handlersAttached ==>
        |filteredVoices| > 0 && LanguageChanged(languages[0], old(messages))
      ensures hostVoices != [] && !handlersAttached ==>
        selectedLang == None && filteredVoices == [] && selectedVoice == None && messages == old(messages)
    {
      voices := hostVoices;
      if |voices| > 0 {
        ShowAvailableLanguages();
      } else {
        messages := messages + [Feedback("No voices were found.", Plain)];
      }
    }

    /**
     * `showAvailableLanguages`: replace the catalogue by the distinct tags of
     * the voices, then the repopulated language select fires "change" with its
     * first option (value "0"), or with value "" when it is empty: then the
     * handler stores `undefined` and throws at `.name`. Before the handlers are
     * attached the event reaches nothing.
     */
    method ShowAvailableLanguages()
      requires Valid()
      modifies this`languages, this`selectedLang, this`filteredVoices, this`selectedVoice, this`messages
      ensures languages == Languages(voices)
      ensures !handlersAttached ==>
        Valid() && selectedLang == old(selectedLang) && filteredVoices == old(filteredVoices) &&
        selectedVoice == old(selectedVoice) && messages == old(messages)
      ensures handlersAttached && voices != [] ==>
        Valid() && |filteredVoices| > 0 && LanguageChanged(languages[0], old(messages))
      ensures handlersAttached && voices == [] ==>
        selectedLang == None && filteredVoices == old(filteredVoices) &&
        selectedVoice == old(selectedVoice) && messages == old(messages)
    {
      languages := DeriveLanguages(voices);
      LanguagesLength(voices);
      if handlersAttached {
        if |languages| > 0 {
          FilteredCatalogueNonEmpty(voices, 0);
          SelectLanguage(0);
        } else {
          selectedLang := None;
        }
      }
    }

    /** The language select's "change" handler, for the option at `index`. */
    method SelectLanguage(index: nat)
      requires handlersAttached && index < |languages|
      modifies this`selectedLang, this`filteredVoices, this`selectedVoice, this`messages
      ensures Valid() && LanguageChanged(old(languages[index]), old(messages))
    {
      selectedLang := Some(languages[index]);
      messages := messages + [LanguageMessage(selectedLang.value)];
      ShowAvailableVoices();
    }

    /**
     * `showAvailableVoices`: filter the voices by the selected language; the
     * repopulated voice select then fires "change" with its first option, or
     * with value "" when it is empty (the handler stores `undefined` and throws).
     */
    method ShowAvailableVoices()
      requires handlersAttached && (selectedLang.Some? ==> selectedLang.value in languages)
      modifies this`filteredVoices, this`selectedVoice, this`messages
      ensures Valid() && filteredVoices == Filtered(voices, selectedLang)
      ensures |filteredVoices| > 0 ==>
        selectedVoice == Some(filteredVoices[0]) && messages == old(messages) + [VoiceMessage(filteredVoices[0])]
      ensures |filteredVoices| == 0 ==> selectedVoice == None && messages == old(messages)
    {
      filteredVoices := Filtered(voices, selectedLang);
      if |filteredVoices| > 0 {
        SelectVoice(0);
      } else {
        selectedVoice := None;
      }
    }

    /** The voice select's "change" handler, for the option at `index`. */
    method SelectVoice(index: nat)
      requires index < |filteredVoices| && OffersMatch()
      modifies this`selectedVoice, this`messages
      ensures Valid() && selectedVoice == Some(filteredVoices[index])
      ensures messages == old(messages) + [VoiceMessage(filteredVoices[index])]
    {
      selectedVoice := Some(filteredVoices[index]);
      messages := messages + [VoiceMessage(selectedVoice.value)];
    }

    /** The pitch control's "change" handler: stores the control's value as it is. */
    method SetPitch(value: string)
      modifies this`pitch
      ensures pitch == old(pitch).(selected := Entered(value))
    {
      pitch := pitch.(selected := Entered(value));
    }

    /** The rate control's "change" handler: stores the control's value as it is. */
    method SetRate(value: string)
      modifies this`rate
      ensures rate == old(rate).(selected := Entered(value))
    {
      rate := rate.(selected := Entered(value));
    }

    /** `setUtterance`: a new utterance carrying the selected voice, its tag, pitch and rate. */
    method SetUtterance(text: string) returns (u: Utterance)
      requires selectedVoice.Some?
      ensures fresh(u) && BuiltFrom(u, text)
    {
      var voice := selectedVoice.value;
      u := new Utterance(text, voice.lang, pitch.selected, rate.selected, voice);
    }

    /** `speakUtterance`: build an utterance from the text and submit it to the engine. */
    method SpeakUtterance(text: string)
      requires selectedVoice.Some?
      modifies this`requests
      ensures |requests| == |old(requests)| + 1 && requests[..|old(requests)|] == old(requests)
      ensures requests[|old(requests)|].Submit? && fresh(requests[|old(requests)|].utterance)
      ensures BuiltFrom(requests[|old(requests)|].utterance, text)
    {
      var u := SetUtterance(text);
      requests := requests + [Submit(u)];
    }

    /**
     * `speak`, the speak button's click handler: `speaking` is the engine's
     * `speaking` flag. While speaking it resumes or pauses; otherwise it submits
     * the text when a voice is selected and warns when none is.
     */
    method Speak(speaking: bool, text: string)
      modifies this`requests, this`messages
      ensures speaking && paused ==> requests == old(requests) + [ResumeRequest] && messages == old(messages)
      ensures speaking && !paused ==> requests == old(requests) + [PauseRequest] && messages == old(messages)
      ensures !speaking && selectedVoice.Some? ==>
        |requests| == |old(requests)| + 1 && requests[..|old(requests)|] == old(requests) &&
        requests[|old(requests)|].Submit? && fresh(requests[|old(requests)|].utterance) &&
        BuiltFrom(requests[|old(requests)|].utterance, text) && messages == old(messages)
      ensures !speaking && selectedVoice.None? ==>
        requests == old(requests) && messages == old(messages) + [Feedback("Select a voice first.", Warning)]
    {
      if speaking {
        if paused {
          requests := requests + [ResumeRequest];
        } else {
          requests := requests + [PauseRequest];
        }
      } else {
        if selectedVoice.Some? {
          SpeakUtterance(text);
        } else {
          messages := messages + [Feedback("Select a voice first.", Warning)];
        }
      }
    }

    /** The stop button's click handler: cancel the engine; the pause flag and buttonText wait for `onend`. */
    method Stop()
      modifies this`requests, this`messages
      ensures requests == old(requests) + [CancelRequest]
      ensures messages == old(messages) + [Feedback("Speech stoped.", Plain)]
    {
      requests := requests + [CancelRequest];
      messages := messages + [Feedback("Speech stoped.", Plain)];
    }

    /** `utterance.onstart`. */
    method OnStart()
      modifies this`buttonText, this`messages
      ensures buttonText == "Pause" && messages == old(messages) + [Feedback("Utterance speak started.", Plain)]
    {
      buttonText := "Pause";
      messages := messages + [Feedback("Utterance speak started.", Plain)];
    }

    /** `utterance.onpause`. */
    method OnPause()
      modifies this`paused, this`buttonText, this`messages
      ensures paused && buttonText == "Speak"
      ensures messages == old(messages) + [Feedback("Utterance speak paused.", Plain)]
    {
      paused := true;
      buttonText := "Speak";
      messages := messages + [Feedback("Utterance speak paused.", Plain)];
    }

    /** `utterance.onresume`. */
    method OnResume()
      modifies this`paused, this`buttonText, this`messages
      ensures !paused && buttonText == "Pause"
      ensures messages == old(messages) + [Feedback("Utterance speak resumed.", Plain)]
    {
      paused := false;
      buttonText := "Pause";
      messages := messages + [Feedback("Utterance speak resumed.", Plain)];
    }

    /** `utterance.onend`. */
    method OnEnd()
      modifies this`paused, this`buttonText, this`messages
      ensures !paused && buttonText == "Speak"
      ensures messages == old(messages) + [Feedback("Utterance speak ended.", Plain)]
    {
      paused := false;
      buttonText := "Speak";
      messages := messages + [Feedback("Utterance speak ended.", Plain)];
    }

    /** `utterance.onerror`: reports only; the pause flag and the buttonText stay as they are. */
    method OnError()
      modifies this`messages
      ensures messages == old(messages) + [Feedback("An error has ocurred triying to speak.", Plain)]
    {
      messages := messages + [Feedback("An error has ocurred triying to speak.", Plain)];
    }

    /**
     * `setDocLanguage`: select the first catalogue entry named by the document's
     * language, as if the user had picked it; nothing happens when that language
     * is empty or not in the catalogue, or when no handler is attached yet.
     */
    method SetDocLanguage(docLang: string)
      requires Valid()
      modifies this`selectedLang, this`filteredVoices, this`selectedVoice, this`messages
      ensures Valid()
      ensures handlersAttached && docLang != [] && Language(docLang) in languages ==>
        LanguageChanged(Language(docLang), old(messages))
      ensures !handlersAttached || docLang == [] || Language(docLang) !in languages ==>
        selectedLang == old(selectedLang) && filteredVoices == old(filteredVoices) &&
        selectedVoice == old(selectedVoice) && messages == old(messages)
    {
      var found := FindLanguage(languages, docLang);
      if found.Some? && handlersAttached {
        SelectLanguage(found.value);
      } else if found.None? && docLang != [] {
        forall l | l in languages ensures l != Language(docLang) {
          var k :| 0 <= k < |languages| && languages[k] == l;
        }
      }
    }
  }
}
