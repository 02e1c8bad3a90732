/** Example sessions of the panel, checked against the contracts. */
module Scenarios {
  import opened Wrappers
  import opened Catalogue
  import opened Filtering
  import opened Tts

  /** Three voices with three distinct tags give three languages, in voice order. */
  lemma ThreeLanguages(a: Voice, b: Voice, c: Voice)
    requires a.lang == "en-US" && b.lang == "en-GB" && c.lang == "fr-FR"
    ensures Languages([a, b, c]) == [Language("en-US"), Language("en-GB"), Language("fr-FR")]
  {
    assert [a, b, c][..2] == [a, b] && [a, b][..1] == [a] && [a][..0] == [];
    assert Languages([a]) == [Language("en-US")];
    assert Languages([a, b]) == [Language("en-US"), Language("en-GB")];
  }

  /** "en-US" offers both English voices and not the French one. */
  lemma EnglishVoices(a: Voice, b: Voice, c: Voice)
    requires a == Voice("A", "en-US") && b == Voice("B", "en-GB") && c == Voice("C", "fr-FR")
    ensures Filtered([a, b, c], Some(Language("en-US"))) == [a, b]
  {
    var en := Some(Language("en-US"));
    FilterVoiceExamples();
    assert !FilterVoice(en, c) by {
      PrimarySubtagUnique("fr-FR", "fr");
      PrimarySubtagUnique("en-US", "en");
    }
    assert [c][1..] == [];
    assert Filtered([c], en) == [];
    assert [b, c][1..] == [c];
    assert Filtered([b, c], en) == [b];
    assert [a, b, c][1..] == [b, c];
  }

  /**
   * Voices delivered while the script loads fill the catalogue but select
   * nothing; once the handlers are attached, a new delivery selects the first
   * language and voice, and a repeat delivery gives the same catalogue.
   */
  method LoadVoices()
  {
    var a, b, c := Voice("A", "en-US"), Voice("B", "en-GB"), Voice("C", "fr-FR");
    var s := new Session("Speak");
    ThreeLanguages(a, b, c);
    EnglishVoices(a, b, c);
    s.GetVoiceList([a, b, c]);
    assert s.languages == [Language("en-US"), Language("en-GB"), Language("fr-FR")];
    assert s.selectedLang == None && s.selectedVoice == None && s.messages == [];
    s.AttachHandlers();
    s.Speak(false, "Hello");
    assert s.requests == [] && s.messages == [Feedback("Select a voice first.", Warning)];
    s.GetVoiceList([]);
    assert s.messages[1] == Feedback("No voices were found.", Plain);
    s.GetVoiceList([a, b, c]);
    assert s.filteredVoices == [a, b] && s.selectedVoice == Some(a);
    var first := s.languages;
    s.GetVoiceList([a, b, c]);
    assert s.languages == first && s.selectedVoice == Some(a);
  }

  /** Submit, start, pause, resume, then stop: the pause flag stays set until the engine ends. */
  method SpeakPauseResume(s: Session, v: Voice)
    requires s.selectedVoice == Some(v) && !s.paused && s.requests == []
    modifies s
  {
    s.Speak(false, "Hello");
    assert |s.requests| == 1 && s.requests[0].Submit? && s.requests[0].utterance.lang == v.lang;
    s.OnStart();
    assert s.buttonText == "Pause";
    s.Speak(true, "Hello");
    assert s.requests[1] == PauseRequest;
    s.OnPause();
    assert s.paused && s.buttonText == "Speak";
    s.Speak(true, "Hello");
    assert s.requests[2] == ResumeRequest;
    s.SetPitch("3");
    s.Stop();
    assert s.paused && s.requests[3] == CancelRequest;
  }
}
