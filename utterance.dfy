/**
 * The utterance handed to the host engine (tts.js `setUtterance`,
 * `addUtteranceText`): text, language tag, pitch, rate and voice.
 */
module Utterances {
  import opened Catalogue

  /**
   * A pitch or rate value. The source starts from numeric literals and then
   * stores whatever string the range control reports; it never computes on them.
   */
  datatype Level = Number(n: int) | Entered(s: string)

  class Utterance {
    var text: string
    var lang: string
    var pitch: Level
    var rate: Level
    var voice: Voice

    constructor (text: string, lang: string, pitch: Level, rate: Level, voice: Voice)
      ensures this.text == text && this.lang == lang
      ensures this.pitch == pitch && this.rate == rate && this.voice == voice
    {
      this.text := text;
      this.lang := lang;
      this.pitch := pitch;
      this.rate := rate;
      this.voice := voice;
    }
  }

  /**
   * The text after splicing `addition` into `current`: before it, separated by
   * a space, when `position` is "pre", and after it otherwise.
   */
  function Spliced(current: string, position: string, addition: string): (r: string)
    ensures |r| == |current| + |addition| + 1
    ensures position == "pre" ==>
      r[..|addition|] == addition && r[|addition|] == ' ' && r[|addition| + 1..] == current
    ensures position != "pre" ==>
      r[..|current|] == current && r[|current|] == ' ' && r[|current| + 1..] == addition
  {
    if position == "pre" then addition + " " + current else current + " " + addition
  }

  /** Splicing "Hello" before and after "world". */
  lemma SplicedExamples()
    ensures Spliced("world", "pre", "Hello") == "Hello world"
    ensures Spliced("world", "post", "Hello") == "world Hello"
  {
  }

  /** `addUtteranceText`: splices the text into the utterance in place and returns the same object. */
  method AddUtteranceText(utterance: Utterance, position: string, text: string) returns (r: Utterance)
    modifies utterance`text
    ensures r == utterance
    ensures utterance.text == Spliced(old(utterance.text), position, text)
  {
    if position == "pre" {
      utterance.text := text + " " + utterance.text;
    } else {
      utterance.text := utterance.text + " " + text;
    }
    r := utterance;
  }
}
