/**
 * Voice filtering by primary subtag (tts.js `filterVoices`, `showAvailableVoices`):
 * a voice is offered when its tag, up to the first '-', equals the selected
 * language's name up to the first '-'. The comparison is exact and case-sensitive.
 */
module Filtering {
  import opened Wrappers
  import opened Catalogue

  /** `s.split(sep)` for a one-character separator: the pieces between separators. */
  function Split(s: string, sep: char): (parts: seq<string>)
    ensures |parts| >= 1
    ensures forall i :: 0 <= i < |parts| ==> sep !in parts[i]
  {
    if s == [] then [""]
    else
      var rest := Split(s[1..], sep);
      if s[0] == sep then [""] + rest
      else [[s[0]] + rest[0]] + rest[1..]
  }

  /** `parts.join(sep)`. */
  function Join(parts: seq<string>, sep: char): (s: string)
    requires |parts| >= 1
  {
    if |parts| == 1 then parts[0] else parts[0] + [sep] + Join(parts[1..], sep)
  }

  /** Joining the pieces of a split gives back the string. */
  lemma {:induction false} JoinSplit(s: string, sep: char)
    ensures Join(Split(s, sep), sep) == s
  {
    if s != [] {
      var rest := Split(s[1..], sep);
      JoinSplit(s[1..], sep);
      if s[0] != sep {
        var parts := Split(s, sep);
        assert parts[1..] == rest[1..];
        if |rest| > 1 {
          assert Join(parts, sep) == [s[0]] + (rest[0] + [sep] + Join(rest[1..], sep));
        }
      }
    }
  }

  /** A string without the separator splits into itself alone. */
  lemma {:induction false} SplitFree(s: string, sep: char)
    requires sep !in s
    ensures Split(s, sep) == [s]
  {
    if s != [] {
      SplitFree(s[1..], sep);
      assert [s[0]] + s[1..] == s;
    }
  }

  /** A separator after a separator-free piece starts a new piece. */
  lemma {:induction false} SplitAfterPiece(a: string, sep: char, b: string)
    requires sep !in a
    ensures Split(a + [sep] + b, sep) == [a] + Split(b, sep)
  {
    var s := a + [sep] + b;
    if a == [] {
      assert s[0] == sep && s[1..] == b;
    } else {
      assert s[0] == a[0] && s[1..] == a[1..] + [sep] + b;
      SplitAfterPiece(a[1..], sep, b);
      assert [a[0]] + a[1..] == a;
    }
  }

  /** Splitting a join of separator-free pieces gives back the pieces. */
  lemma {:induction false} SplitJoin(parts: seq<string>, sep: char)
    requires |parts| >= 1
    requires forall i :: 0 <= i < |parts| ==> sep !in parts[i]
    ensures Split(Join(parts, sep), sep) == parts
  {
    if |parts| == 1 {
      SplitFree(parts[0], sep);
    } else {
      SplitJoin(parts[1..], sep);
      SplitAfterPiece(parts[0], sep, Join(parts[1..], sep));
    }
  }

  /** The first piece of a split is a prefix free of separators, followed by a separator or the end. */
  lemma {:induction false} SplitHead(s: string, sep: char)
    ensures Split(s, sep)[0] <= s
    ensures |Split(s, sep)[0]| < |s| ==> s[|Split(s, sep)[0]|] == sep
  {
    if s != [] && s[0] != sep {
      SplitHead(s[1..], sep);
    }
  }

  /**
   * `tag.split('-')[0]`: the text before the first '-', or the whole tag when
   * it has none.
   */
  function PrimarySubtag(tag: string): (p: string)
    ensures p <= tag && '-' !in p
    ensures |p| < |tag| ==> tag[|p|] == '-'
  {
    SplitHead(tag, '-');
    Split(tag, '-')[0]
  }

  /** A prefix that is free of '-' and ends at a '-' or at the end is the primary subtag. */
  lemma PrimarySubtagUnique(tag: string, p: string)
    requires p <= tag && '-' !in p
    requires |p| < |tag| ==> tag[|p|] == '-'
    ensures p == PrimarySubtag(tag)
  {
  }

  /**
   * `filterVoices(voice)`: with no selected language the predicate returns
   * `undefined`, which `Array.prototype.filter` treats as a rejection.
   */
  function FilterVoice(selected: Option<Language>, voice: Voice): (keep: bool)
    ensures keep ==> selected.Some?
    ensures selected.Some? ==> (keep <==> PrimarySubtag(voice.lang) == PrimarySubtag(selected.value.name))
  {
    match selected
    case None => false
    case Some(lang) => Split(voice.lang, '-')[0] == Split(lang.name, '-')[0]
  }

  /** A voice always matches a language named by its own tag. */
  lemma FilterVoiceOwnTag(voice: Voice)
    ensures FilterVoice(Some(Language(voice.lang)), voice)
  {
  }

  /** A bare tag matches the regional tags of its language, and the comparison is case-sensitive. */
  lemma FilterVoiceExamples()
    ensures FilterVoice(Some(Language("en-US")), Voice("B", "en-GB"))
    ensures FilterVoice(Some(Language("en-US")), Voice("D", "en"))
    ensures !FilterVoice(Some(Language("en-US")), Voice("E", "EN-us"))
    ensures !FilterVoice(None, Voice("A", "en-US"))
  {
  }

  /** `voices.filter(filterVoices)`. */
  function Filtered(voices: seq<Voice>, selected: Option<Language>): (kept: seq<Voice>)
    ensures |kept| <= |voices|
    ensures selected.None? ==> kept == []
    ensures forall v :: v in kept ==> v in voices && FilterVoice(selected, v)
    ensures forall v :: v in voices && FilterVoice(selected, v) ==> v in kept
  {
    if voices == [] then []
    else if FilterVoice(selected, voices[0]) then [voices[0]] + Filtered(voices[1..], selected)
    else Filtered(voices[1..], selected)
  }

  /** Filtering keeps the order of the voices: it distributes over concatenation. */
  lemma {:induction false} FilteredAppend(a: seq<Voice>, b: seq<Voice>, selected: Option<Language>)
    ensures Filtered(a + b, selected) == Filtered(a, selected) + Filtered(b, selected)
  {
    if a == [] {
      assert a + b == b;
    } else {
      assert (a + b)[0] == a[0] && (a + b)[1..] == a[1..] + b;
      FilteredAppend(a[1..], b, selected);
    }
  }

  /** Filtering keeps each matching voice as often as it occurs and drops the others. */
  lemma {:induction false} FilteredCount(voices: seq<Voice>, selected: Option<Language>, v: Voice)
    ensures multiset(Filtered(voices, selected))[v] == if FilterVoice(selected, v) then multiset(voices)[v] else 0
  {
    if voices != [] {
      assert voices == [voices[0]] + voices[1..];
      FilteredCount(voices[1..], selected, v);
    }
  }

  /** Every language of the catalogue offers at least one voice: the first voice with that tag. */
  lemma FilteredCatalogueNonEmpty(voices: seq<Voice>, i: nat)
    requires i < |Languages(voices)|
    ensures |Filtered(voices, Some(Languages(voices)[i]))| > 0
  {
    var l := Languages(voices)[i];
    LanguagesCover(voices);
    var k :| 0 <= k < |voices| && voices[k].lang == l.name;
    FilterVoiceOwnTag(voices[k]);
  }
}
