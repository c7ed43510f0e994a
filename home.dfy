/**
 * The voice home screen: the featured preset voices, the voice picker, the auto-growing text
 * area and the generate button.
 */
module Home {
  import opened Wrappers
  import opened Seqs
  import opened Text
  import opened Types
  import opened VoiceCatalog
  import VoiceLibrary

  const MIN_HEIGHT: int := 220
  const MAX_HEIGHT: int := 600

  /** `featuredVoices`: the preset voices in registry order. */
  function FeaturedVoices(voices: seq<Voice>): (r: seq<Voice>)
    ensures forall i :: 0 <= i < |r| ==> IsPresetVoice(r[i]) && r[i] in voices
    ensures forall i :: 0 <= i < |voices| && IsPresetVoice(voices[i]) ==> voices[i] in r
    ensures IsSubsequence(r, voices)
  {
    Filter(voices, IsPresetVoice)
  }

  /**
   * The featured voices are what the library's preset tab lists with no filter set, and what the
   * picker's preset tab lists with an empty search.
   */
  lemma FeaturedMatchesOtherListings(voices: seq<Voice>)
    ensures FeaturedVoices(voices) == VoiceLibrary.FilteredVoices(voices, Preset, None, None, "")
    ensures FeaturedVoices(voices) == FilteredModalVoices(voices, PresetTab, "")
  {
    VoiceLibrary.ClearedFiltersListTab(voices, Preset);
    ModalPresetTabIsPresetVoices(voices);
  }

  /** The text-area height for the measured content height: the content height clamped to [220, 600]. */
  function TextareaHeight(scrollHeight: int): (r: int)
    ensures MIN_HEIGHT <= r <= MAX_HEIGHT
    ensures MIN_HEIGHT <= scrollHeight <= MAX_HEIGHT ==> r == scrollHeight
    ensures scrollHeight < MIN_HEIGHT ==> r == MIN_HEIGHT
    ensures scrollHeight > MAX_HEIGHT ==> r == MAX_HEIGHT
  {
    Min(if scrollHeight >= MIN_HEIGHT then scrollHeight else MIN_HEIGHT, MAX_HEIGHT)
  }

  /** A taller content never gives a shorter text area. */
  lemma TextareaHeightMonotone(a: int, b: int)
    requires a <= b
    ensures TextareaHeight(a) <= TextareaHeight(b)
  {
  }

  /** The part of the screen a picker choice changes. */
  datatype PickerState = PickerState(selected: Voice, showModal: bool)

  /** Choosing a voice in the picker selects it and closes the picker. */
  function SelectFromModal(state: PickerState, v: Voice): (r: PickerState)
    ensures r.selected == v && !r.showModal
  {
    state.(selected := v, showModal := false)
  }

  /** The generate button is enabled exactly when the text is not blank. */
  function GenerateEnabled(text: string): (r: bool)
    ensures r <==> !IsBlank(text)
  {
    TrimEmptyIff(text);
    Trim(text) != ""
  }
}
