/**
 * Voice predicates shared by the screens that list voices: the custom-voice test of the library
 * and cloning screens, the preset test, and the voice-picker filter of the TTS and home screens.
 */
module VoiceCatalog {
  import opened Wrappers
  import opened Seqs
  import opened Text
  import opened Types

  /** `v.source === 'custom' || v.isCustom`. */
  predicate IsCustomVoice(v: Voice)
  {
    v.source == Some(CustomSource) || v.isCustom
  }

  /** `v.source === 'preset'`. */
  predicate IsPresetVoice(v: Voice)
  {
    v.source == Some(PresetSource)
  }

  /** The two tabs of the voice-picker modal. */
  datatype ModalTab = PresetTab | CustomTab

  function TabSource(tab: ModalTab): VoiceSource
  {
    if tab == PresetTab then PresetSource else CustomSource
  }

  /** Case-insensitive substring match of the search text on the voice name. */
  predicate NameMatches(v: Voice, search: string)
  {
    Contains(ToLower(v.name), ToLower(search))
  }

  /** A voice is listed when its source is the tab's, or the tab is custom and the voice is flagged custom. */
  predicate ModalMatches(v: Voice, tab: ModalTab, search: string)
  {
    (v.source == Some(TabSource(tab)) || (tab == CustomTab && v.isCustom)) && NameMatches(v, search)
  }

  /** `filteredModalVoices`: the voices the picker lists, in registry order. */
  function FilteredModalVoices(voices: seq<Voice>, tab: ModalTab, search: string): (r: seq<Voice>)
    ensures forall i :: 0 <= i < |r| ==> r[i] in voices && ModalMatches(r[i], tab, search)
    ensures forall i :: 0 <= i < |voices| && ModalMatches(voices[i], tab, search) ==> voices[i] in r
    ensures IsSubsequence(r, voices)
  {
    Filter(voices, v => ModalMatches(v, tab, search))
  }

  /** With an empty search the custom tab of the picker lists exactly the custom voices. */
  lemma ModalCustomTabIsCustomVoices(voices: seq<Voice>)
    ensures FilteredModalVoices(voices, CustomTab, "") == Filter(voices, IsCustomVoice)
  {
    forall i | 0 <= i < |voices|
      ensures ModalMatches(voices[i], CustomTab, "") == IsCustomVoice(voices[i])
    {
      ContainsEmpty(ToLower(voices[i].name));
    }
    FilterCongruent(voices, v => ModalMatches(v, CustomTab, ""), IsCustomVoice);
  }

  /** With an empty search the preset tab of the picker lists exactly the preset voices. */
  lemma ModalPresetTabIsPresetVoices(voices: seq<Voice>)
    ensures FilteredModalVoices(voices, PresetTab, "") == Filter(voices, IsPresetVoice)
  {
    forall i | 0 <= i < |voices|
      ensures ModalMatches(voices[i], PresetTab, "") == IsPresetVoice(voices[i])
    {
      ContainsEmpty(ToLower(voices[i].name));
    }
    FilterCongruent(voices, v => ModalMatches(v, PresetTab, ""), IsPresetVoice);
  }

  /** The calls a screen makes on the shared voice registry. */
  datatype VoiceRequest =
    | AddVoice(voice: Voice)
    | UpdateVoice(id: string, name: string, tags: seq<string>)
    | DeleteVoice(id: string)

  /** The separator class `[，, ]` of the tag editors: a full-width comma, a comma or a space. */
  predicate IsTagSep(c: char)
  {
    c == '，' || c == ',' || c == ' '
  }

  /**
   * Tags shown joined by ", " and split back on the separator class come back unchanged, when no
   * tag holds a separator and the filter drops the empty pieces the two-character join leaves.
   */
  lemma {:induction false} TagsRoundTrip(xs: seq<string>, keep: string -> bool)
    requires !keep("")
    requires forall k :: 0 <= k < |xs| ==> keep(xs[k]) && SepFree(xs[k], IsTagSep)
    ensures Filter(Split(Join(xs, ", "), IsTagSep), keep) == xs
    decreases |xs|
  {
    if |xs| == 0 {
      assert Split(Join(xs, ", "), IsTagSep) == [""];
    } else if |xs| == 1 {
      SplitSepFree(xs[0], IsTagSep);
      assert Filter([xs[0]], keep) == [xs[0]] + Filter([xs[0]][1..], keep);
    } else {
      var t := Join(xs[1..], ", ");
      assert Join(xs, ", ") == xs[0] + [','] + ([' '] + t);
      SplitAfterPiece(xs[0], ',', [' '] + t, IsTagSep);
      assert [' '] + t == "" + [' '] + t;
      SplitAfterPiece("", ' ', t, IsTagSep);
      TagsRoundTrip(xs[1..], keep);
      var pieces := Split(Join(xs, ", "), IsTagSep);
      assert pieces == [xs[0]] + ([""] + Split(t, IsTagSep));
      FilterAppend([xs[0]], [""] + Split(t, IsTagSep), keep);
      FilterAppend([""], Split(t, IsTagSep), keep);
      assert Filter([xs[0]], keep) == [xs[0]] + Filter([xs[0]][1..], keep);
      assert Filter([""], keep) == Filter([""][1..], keep);
      assert [xs[0]] + xs[1..] == xs;
    }
  }
}
