/**
 * The text-to-speech screen: a simulated synthesis that plays a demo clip through the global
 * player under a derived voice, a most-recent-first log of twenty syntheses, replay and deletion
 * of log entries, and the synthesis parameters with their reset.
 */
module Tts {
  import opened Wrappers
  import opened Seqs
  import opened Text
  import opened Types

  const HISTORY_CAP: nat := 20
  const SNIPPET_LENGTH: nat := 150
  const DEMO_AUDIO: string := "https://interactive-examples.mdn.mozilla.net/media/cc0-audio/t-rex-roar.mp3"
  const RESULT_SUFFIX: string := " (合成结果)"
  const HISTORY_SUFFIX: string := " (历史记录)"

  /** A log entry of one synthesis. */
  datatype Item = Item(
    id: string,
    text: string,
    voiceName: string,
    time: string,
    audioUrl: string,
    avatarUrl: string,
    category: Category)

  /** The calls this screen makes on the global player. */
  datatype PlayerCall = ClosePlayer | PlayVoice(voice: Voice)

  /** The id a synthesis finished at millisecond `now` receives. */
  function ResultId(now: nat): (r: string)
    ensures r == "tts_gen_" + NatToString(now)
  {
    "tts_gen_" + NatToString(now)
  }

  /** Syntheses finished at different milliseconds receive different ids. */
  lemma ResultIdsDistinct(m: nat, n: nat)
    requires m != n
    ensures ResultId(m) != ResultId(n)
  {
    var p := "tts_gen_";
    if ResultId(m) == ResultId(n) {
      assert NatToString(m) == ResultId(m)[|p|..];
      assert NatToString(n) == ResultId(n)[|p|..];
      NatToStringInjective(m, n);
    }
  }

  /**
   * The voice the finished synthesis is played under: a copy of the selected voice that differs
   * only in its id, its preview (the demo clip) and its name (the selected name plus a suffix).
   */
  function ResultVoice(selected: Voice, now: nat): (r: Voice)
    ensures r.(id := selected.id, previewUrl := selected.previewUrl, name := selected.name) == selected
    ensures r.id == ResultId(now) && r.previewUrl == Some(DEMO_AUDIO)
    ensures r.name == selected.name + RESULT_SUFFIX
  {
    selected.(id := ResultId(now), previewUrl := Some(DEMO_AUDIO), name := selected.name + RESULT_SUFFIX)
  }

  /** The first 150 characters of `s`, or all of it when it is shorter. */
  function Snippet(s: string): (r: string)
    ensures |r| == Min(|s|, SNIPPET_LENGTH)
    ensures r == s[..|r|]
  {
    if |s| <= SNIPPET_LENGTH then s else s[..SNIPPET_LENGTH]
  }

  /** The log entry of a synthesis of `text` with `selected`, given its id and local time. */
  function ItemFor(text: string, selected: Voice, id: string, time: string): (r: Item)
    ensures r.text == Snippet(text) && r.voiceName == selected.name
    ensures r.id == id && r.time == time && r.audioUrl == DEMO_AUDIO
    ensures r.avatarUrl == selected.avatarUrl && r.category == selected.category
  {
    Item(id, Snippet(text), selected.name, time, DEMO_AUDIO, selected.avatarUrl, selected.category)
  }

  /**
   * `playFromHistory`: the voice built from a log entry. It has the entry's id, clip, avatar and
   * category, a suffixed name, and otherwise the literal defaults of the handler.
   */
  function HistoryVoice(item: Item): (r: Voice)
    ensures r.id == item.id && r.previewUrl == Some(item.audioUrl)
    ensures r.avatarUrl == item.avatarUrl && r.category == item.category
    ensures r.name == item.voiceName + HISTORY_SUFFIX
    ensures r.gender == Male && r.language == Chinese && r.tags == []
    ensures !r.isCustom && !r.isFavorite && !r.isPublic && r.source == None
  {
    Voice(item.id, item.voiceName + HISTORY_SUFFIX, Male, Chinese, [], None, item.category,
      Some(item.audioUrl), item.avatarUrl, false, false, false, None, None, None)
  }

  /**
   * Replaying the log entry of a synthesis plays the same clip under the same id, avatar and
   * category as the synthesis itself played.
   */
  lemma ReplayMatchesSynthesis(text: string, selected: Voice, now: nat, time: string)
    ensures var played := ResultVoice(selected, now);
      var replayed := HistoryVoice(ItemFor(text, selected, played.id, time));
      replayed.id == played.id && replayed.previewUrl == played.previewUrl &&
      replayed.avatarUrl == played.avatarUrl && replayed.category == played.category
  {
  }

  /** Whether the generate button is enabled. */
  predicate CanGenerate(text: string, isGenerating: bool): (r: bool)
    ensures r <==> !isGenerating && Trim(text) != ""
  {
    TrimEmptyIff(text);
    !isGenerating && !IsBlank(text)
  }

  class TtsScreen {
    var text: string
    var selected: Voice
    var isGenerating: bool
    var error: Option<string>
    var history: seq<Item>
    var speed: real
    var pitch: int
    var volume: real
    var emotion: string
    var playerCalls: seq<PlayerCall>
    /** The text and voice a running synthesis captured when it started. */
    var pendingText: string
    var pendingVoice: Voice

    /** The log is capped, and every logged text is a non-empty snippet. */
    ghost predicate Valid()
      reads this
    {
      |history| <= HISTORY_CAP &&
      (forall i :: 0 <= i < |history| ==> 0 < |history[i].text| <= SNIPPET_LENGTH) &&
      (isGenerating ==> !IsBlank(pendingText))
    }

    constructor (initialText: string, initialVoice: Voice)
      ensures Valid()
      ensures text == initialText && selected == initialVoice && !isGenerating && error == None
      ensures history == [] && playerCalls == []
      ensures speed == 1.0 && pitch == 0 && volume == 1.0 && emotion == "natural"
    {
      text, selected, isGenerating, error, history := initialText, initialVoice, false, None, [];
      speed, pitch, volume, emotion := 1.0, 0, 1.0, "natural";
      playerCalls := [];
      pendingText, pendingVoice := "", initialVoice;
    }

    /**
     * The synchronous start of `handleGenerate`: nothing happens for blank text; otherwise the
     * synthesis starts, the error clears and the global player is closed.
     */
    method BeginGenerate()
      requires Valid() && !isGenerating
      modifies this`isGenerating, this`error, this`playerCalls, this`pendingText, this`pendingVoice
      ensures Valid()
      ensures IsBlank(text) ==> (!isGenerating && error == old(error) && playerCalls == old(playerCalls))
      ensures !IsBlank(text) ==> (isGenerating && error == None &&
        playerCalls == old(playerCalls) + [ClosePlayer] &&
        pendingText == text && pendingVoice == selected)
    {
      TrimEmptyIff(text);
      if Trim(text) == [] {
        return;
      }
      isGenerating := true;
      error := None;
      playerCalls := playerCalls + [ClosePlayer];
      pendingText, pendingVoice := text, selected;
    }

    /**
     * The completion of `handleGenerate` at millisecond `now` and local time `time`: the entry is
     * logged first, the oldest beyond twenty drop, and the result voice is played.
     */
    method CompleteGenerate(now: nat, time: string)
      requires Valid() && isGenerating
      modifies this`history, this`playerCalls, this`isGenerating
      ensures Valid() && !isGenerating
      ensures history == PrependCapped(ItemFor(pendingText, pendingVoice, ResultId(now), time),
        old(history), HISTORY_CAP)
      ensures playerCalls == old(playerCalls) + [PlayVoice(ResultVoice(pendingVoice, now))]
    {
      TrimEmptyIff(pendingText);
      var voice := ResultVoice(pendingVoice, now);
      var item := ItemFor(pendingText, pendingVoice, voice.id, time);
      assert 0 < |item.text| <= SNIPPET_LENGTH;
      history := PrependCapped(item, history, HISTORY_CAP);
      playerCalls := playerCalls + [PlayVoice(voice)];
      isGenerating := false;
    }

    /** Clicking a log entry plays it. */
    method PlayFromHistory(index: nat)
      requires index < |history|
      modifies this`playerCalls
      ensures playerCalls == old(playerCalls) + [PlayVoice(HistoryVoice(history[index]))]
    {
      playerCalls := playerCalls + [PlayVoice(HistoryVoice(history[index]))];
    }

    /** `deleteHistoryItem(id)`: every entry with that id goes, every other entry stays in order. */
    method DeleteHistoryItem(id: string)
      requires Valid()
      modifies this`history
      ensures Valid()
      ensures history == Filter(old(history), (item: Item) => item.id != id)
      ensures forall i :: 0 <= i < |history| ==> history[i].id != id
      ensures forall i :: 0 <= i < |old(history)| && old(history)[i].id != id ==> old(history)[i] in history
    {
      var kept := Filter(history, (item: Item) => item.id != id);
      assert forall i :: 0 <= i < |kept| ==> kept[i] in history;
      history := kept;
    }

    /** `resetParams`: speed, pitch, volume and emotion return to their defaults. */
    method ResetParams()
      modifies this`speed, this`pitch, this`volume, this`emotion
      ensures speed == 1.0 && pitch == 0 && volume == 1.0 && emotion == "natural"
    {
      speed, pitch, volume, emotion := 1.0, 0, 1.0, "natural";
    }

    /** The eraser button empties the text, which disables the generate button. */
    method ClearText()
      modifies this`text
      ensures text == "" && !CanGenerate(text, isGenerating)
    {
      text := "";
    }
  }
}
