/**
 * The language catalogue of the text-to-speech panel (tts.js): the voices the
 * host engine offers, and the list of distinct language tags derived from them
 * in the order in which each tag first appears.
 */
module Catalogue {
  import opened Wrappers

  /** A host voice: its display name and its language tag, e.g. "en-US". */
  datatype Voice = Voice(name: string, lang: string)

  /** An entry of the language list: `{ name: voice.lang }`. */
  datatype Language = Language(name: string)

  /**
   * The reference definition of the language list: the tags of `voices`,
   * each kept at its first occurrence.
   */
  function Languages(voices: seq<Voice>): (langs: seq<Language>)
  {
    if voices == [] then []
    else
      var earlier := Languages(voices[..|voices| - 1]);
      var tag := Language(voices[|voices| - 1].lang);
      if tag in earlier then earlier else earlier + [tag]
  }

  /** The index of the first voice whose tag is `tag`, or `|voices|` when there is none. */
  function FirstIndex(voices: seq<Voice>, tag: string): (k: nat)
    ensures k <= |voices|
    ensures k < |voices| ==> voices[k].lang == tag
    ensures forall m :: 0 <= m < k ==> voices[m].lang != tag
  {
    if voices == [] then 0
    else if voices[0].lang == tag then 0
    else 1 + FirstIndex(voices[1..], tag)
  }

  /** Appending one voice does not move the first occurrence of a tag that already occurs. */
  lemma {:induction false} FirstIndexSnoc(voices: seq<Voice>, v: Voice, tag: string)
    ensures FirstIndex(voices + [v], tag) ==
      if FirstIndex(voices, tag) < |voices| then FirstIndex(voices, tag)
      else if v.lang == tag then |voices| else |voices| + 1
  {
    var w := voices + [v];
    forall m | 0 <= m < |voices| ensures w[m] == voices[m] { }
    assert w[|voices|] == v;
  }

  /** Every tag in the language list is the tag of some voice, and every voice's tag is in the list. */
  lemma {:induction false} LanguagesCover(voices: seq<Voice>)
    ensures forall k :: 0 <= k < |voices| ==> Language(voices[k].lang) in Languages(voices)
    ensures forall l :: l in Languages(voices) ==> exists k :: 0 <= k < |voices| && voices[k].lang == l.name
  {
    if voices != [] {
      var front := voices[..|voices| - 1];
      LanguagesCover(front);
      forall k | 0 <= k < |voices| - 1 ensures voices[k] == front[k] { }
    }
  }

  /** No tag appears twice in the language list. */
  lemma {:induction false} LanguagesDistinct(voices: seq<Voice>)
    ensures forall i, j :: 0 <= i < j < |Languages(voices)| ==> Languages(voices)[i] != Languages(voices)[j]
  {
    if voices != [] {
      LanguagesDistinct(voices[..|voices| - 1]);
    }
  }

  /** The list is never longer than the voice list, and is empty only when the voice list is. */
  lemma {:induction false} LanguagesLength(voices: seq<Voice>)
    ensures |Languages(voices)| <= |voices|
    ensures |Languages(voices)| == 0 <==> |voices| == 0
  {
    if voices != [] {
      LanguagesLength(voices[..|voices| - 1]);
    }
  }

  /** The list is ordered by first occurrence of each tag in the voice list. */
  lemma {:induction false} LanguagesOrder(voices: seq<Voice>)
    ensures forall i, j :: 0 <= i < j < |Languages(voices)| ==>
      FirstIndex(voices, Languages(voices)[i].name) < FirstIndex(voices, Languages(voices)[j].name)
  {
    if voices != [] {
      var front, last := voices[..|voices| - 1], voices[|voices| - 1];
      assert voices == front + [last];
      var earlier, langs := Languages(front), Languages(voices);
      LanguagesOrder(front);
      LanguagesCover(front);
      forall i | 0 <= i < |earlier|
        ensures FirstIndex(voices, earlier[i].name) == FirstIndex(front, earlier[i].name) < |front|
      {
        var k :| 0 <= k < |front| && front[k].lang == earlier[i].name;
        FirstIndexSnoc(front, last, earlier[i].name);
      }
      if Language(last.lang) !in earlier {
        FirstIndexSnoc(front, last, last.lang);
        forall k | 0 <= k < |front| ensures front[k].lang != last.lang {
          assert Language(front[k].lang) in earlier;
        }
        assert FirstIndex(front, last.lang) == |front|;
      }
    }
  }

  /**
   * The loop of `showAvailableLanguages`: for each voice, scan the tags kept so
   * far (`flag` records whether the tag was seen) and push it when it is new.
   */
  method DeriveLanguages(voices: seq<Voice>) returns (languages: seq<Language>)
    ensures languages == Languages(voices)
  {
    languages := [];
    var vl := |voices|;
    var ll := |languages|;
    var flag := true;
    var i := 0;
    while i < vl
      invariant 0 <= i <= vl && ll == |languages| && flag
      invariant languages == Languages(voices[..i])
    {
      var j := 0;
      while j < ll
        invariant 0 <= j <= ll && flag
        invariant forall k :: 0 <= k < j ==> languages[k].name != voices[i].lang
      {
        if languages[j].name == voices[i].lang {
          flag := false;
          break;
        }
        j := j + 1;
      }
      assert voices[..i + 1][..i] == voices[..i];
      if flag {
        languages := languages + [Language(voices[i].lang)];
        ll := ll + 1;
      } else {
        assert languages[j] == Language(voices[i].lang);
      }
      flag := true;
      i := i + 1;
    }
    assert voices[..vl] == voices;
  }

  /**
   * The search of `setDocLanguage`: the first language whose name is the
   * document's language; nothing when that language is empty or absent.
   */
  method FindLanguage(languages: seq<Language>, docLang: string) returns (found: Option<nat>)
    ensures docLang == [] ==> found == None
    ensures found.Some? ==> found.value < |languages| && languages[found.value].name == docLang
    ensures found.Some? ==> forall k :: 0 <= k < found.value ==> languages[k].name != docLang
    ensures found.None? && docLang != [] ==> forall k :: 0 <= k < |languages| ==> languages[k].name != docLang
  {
    found := None;
    if docLang != [] {
      var l := |languages|;
      var i := 0;
      while i < l
        invariant 0 <= i <= l
        invariant forall k :: 0 <= k < i ==> languages[k].name != docLang
      {
        if languages[i].name == docLang {
          found := Some(i);
          break;
        }
        i := i + 1;
      }
    }
  }
}
