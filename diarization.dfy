/**
 * The speaker-diarization screen: a scripted live stream that attributes utterances to speakers,
 * file analysis through an external service, and the editing of the speaker registry (rename,
 * demote, purge). The registry itself belongs to a shared context and is modelled as a map from
 * speaker id to identity with insert, merge and delete.
 */
module Diarization {
  import opened Wrappers
  import opened Seqs
  import opened Text
  import TimeFormat
  import opened Types

  type Registry = map<string, SpeakerIdentity>

  const EMPTY: Registry := map[]

  /** The speakers of the scripted conversation, line by line. */
  const DIALOG_SPEAKERS: seq<string> :=
    ["spk_known_1", "spk_known_2", "spk_new_3", "spk_known_1", "spk_new_3", "spk_known_2", "spk_known_1"]

  /** The texts of the scripted conversation, line by line. */
  const DIALOG_TEXTS: seq<string> := [
    "大家好，欢迎参加今天的语音技术研讨会。我们将探讨最新的声纹识别进展。",
    "李经理好，我这边已经准备好演示 Demo 了，大家可以看到实时转录的效果。",
    "抱歉我来晚了，我是研发部的张三。刚才提到的实时延迟是多少？",
    "没关系，张工。我们刚开始。目前流式处理可以做到百毫秒级。",
    "明白了，那对于复杂背景噪音的处理能力如何呢？",
    "我们采用了最新的降噪算法，配合 Gemini 3 的多模态能力，抗噪表现非常优异。",
    "接下来我们可以测试一下在多人交谈情况下的分离准确度。"
  ]

  const DIALOG_LENGTH: nat := 7

  const ANALYSIS_FAILED: string := "分析失败"
  const RESET_VISITOR_NAME: string := "访客 (已重置)"
  const UNKNOWN_NAME: string := "未知身份"

  // ---------------------------------------------------------------------------------------------
  // The registry operations of the shared context

  /** `registerSpeaker`: the identity is stored under its id. */
  function Register(reg: Registry, s: SpeakerIdentity): (r: Registry)
    ensures r.Keys == reg.Keys + {s.id} && r[s.id] == s
    ensures forall id :: id in reg && id != s.id ==> r[id] == reg[id]
  {
    reg[s.id := s]
  }

  /** `updateSpeaker(id, { name, isKnown: true })` as a rename merges into an existing entry only. */
  function Rename(reg: Registry, id: string, name: string): (r: Registry)
    ensures r.Keys == reg.Keys
    ensures id in reg ==> r[id] == reg[id].(name := name, isKnown := true)
    ensures forall k :: k in reg && k != id ==> r[k] == reg[k]
  {
    if id in reg then reg[id := reg[id].(name := name, isKnown := true)] else reg
  }

  /** Registers each identity in turn. */
  function RegisterAll(reg: Registry, regs: seq<SpeakerIdentity>): (r: Registry)
    ensures forall i :: 0 <= i < |regs| ==> regs[i].id in r
    ensures forall k :: k in reg ==> k in r
    decreases |regs|
  {
    if regs == [] then reg else RegisterAll(Register(reg, regs[0]), regs[1..])
  }

  // ---------------------------------------------------------------------------------------------
  // Which candidates get registered

  /**
   * The registrations made when every candidate is tested against one fixed registry: the
   * snapshot the stream's interval closure and the analysis `map` callback both read.
   */
  function StaleRegistrations(snapshot: Registry, cands: seq<SpeakerIdentity>): (r: seq<SpeakerIdentity>)
    ensures forall i :: 0 <= i < |r| ==> r[i].id !in snapshot && r[i] in cands
    ensures forall i :: 0 <= i < |cands| && cands[i].id !in snapshot ==> cands[i] in r
    ensures IsSubsequence(r, cands)
  {
    Filter(cands, (c: SpeakerIdentity) => c.id !in snapshot)
  }

  /** The ids of a sequence of identities. */
  function IdsOf(regs: seq<SpeakerIdentity>): (r: set<string>)
    ensures forall i :: 0 <= i < |regs| ==> regs[i].id in r
  {
    set i | 0 <= i < |regs| :: regs[i].id
  }

  /**
   * The registrations made when every candidate is tested against the registry as the earlier
   * registrations left it: a speaker is registered the first time it is seen and never again.
   */
  function LiveRegistrations(reg: Registry, cands: seq<SpeakerIdentity>): (r: seq<SpeakerIdentity>)
    ensures forall i :: 0 <= i < |r| ==> r[i].id !in reg
    ensures forall i, j :: 0 <= i < j < |r| ==> r[i].id != r[j].id
    ensures forall i :: 0 <= i < |cands| ==> cands[i].id in reg || cands[i].id in IdsOf(r)
    ensures IsSubsequence(r, cands)
    decreases |cands|
  {
    if cands == [] then []
    else if cands[0].id in reg then LiveRegistrations(reg, cands[1..])
    else
      var rest := LiveRegistrations(Register(reg, cands[0]), cands[1..]);
      IdsOfCons(cands[0], rest);
      [cands[0]] + rest
  }

  lemma IdsOfCons(x: SpeakerIdentity, rest: seq<SpeakerIdentity>)
    ensures IdsOf([x] + rest) == {x.id} + IdsOf(rest)
  {
    var s := [x] + rest;
    forall id | id in IdsOf(s) ensures id in {x.id} + IdsOf(rest) {
      var i :| 0 <= i < |s| && s[i].id == id;
      if i > 0 {
        assert s[i] == rest[i - 1];
      }
    }
    forall id | id in IdsOf(rest) ensures id in IdsOf(s) {
      var j :| 0 <= j < |rest| && rest[j].id == id;
      assert s[j + 1] == rest[j];
    }
    assert s[0] == x;
  }

  /** Live registration never touches an identity that is already registered. */
  lemma {:induction false} LiveKeepsExisting(reg: Registry, cands: seq<SpeakerIdentity>, id: string)
    requires id in reg
    ensures RegisterAll(reg, LiveRegistrations(reg, cands))[id] == reg[id]
    decreases |cands|
  {
    if cands == [] {
    } else if cands[0].id in reg {
      LiveKeepsExisting(reg, cands[1..], id);
    } else {
      var reg' := Register(reg, cands[0]);
      LiveKeepsExisting(reg', cands[1..], id);
      assert [cands[0]] + LiveRegistrations(reg', cands[1..]) == LiveRegistrations(reg, cands);
    }
  }

  // ---------------------------------------------------------------------------------------------
  // The live stream

  /** `speakerId.includes('known')`. */
  predicate IsKnownId(id: string): (r: bool)
    ensures r <==> exists k :: OccursAt(id, "known", k)
  {
    ContainsIffOccurs(id, "known");
    Contains(id, "known")
  }

  /** Every id of the `spk_known_` family the dialogue uses counts as known. */
  lemma KnownPrefixIsKnown(suffix: string)
    ensures IsKnownId("spk_known_" + suffix)
  {
    var id := "spk_known_" + suffix;
    assert id[4..9] == "known";
    assert OccursAt(id, "known", 4);
  }

  /** The identity the stream registers for dialogue line `index`. */
  function StreamSpeaker(index: nat): (r: SpeakerIdentity)
    requires index < DIALOG_LENGTH
    ensures r.id == DIALOG_SPEAKERS[index] && r.avatarSeed == r.id && r.source == None
    ensures r.isKnown <==> IsKnownId(r.id)
    ensures r.color == if index % 2 == 0 then "bg-blue-600" else "bg-purple-600"
    ensures r.name == if !r.isKnown then "未知访客" else if r.id == "spk_known_1" then "李经理" else "王助理"
  {
    var id := DIALOG_SPEAKERS[index];
    var known := IsKnownId(id);
    SpeakerIdentity(
      id,
      if known then (if id == "spk_known_1" then "李经理" else "王助理") else "未知访客",
      if index % 2 == 0 then "bg-blue-600" else "bg-purple-600",
      known,
      id,
      None)
  }

  /** The candidates of the first `n` ticks of the stream. */
  function StreamCandidates(n: nat): (r: seq<SpeakerIdentity>)
    requires n <= DIALOG_LENGTH
    ensures |r| == n && forall i :: 0 <= i < n ==> r[i] == StreamSpeaker(i)
  {
    seq(n, i requires 0 <= i < n => StreamSpeaker(i))
  }

  /** The segment stream tick `index` appends, given the clock and a random draw in [0, 1). */
  function StreamSegment(index: nat, now: nat, rand: real): (r: SpeakerSegment)
    requires index < DIALOG_LENGTH && 0.0 <= rand < 1.0
    ensures r.speakerId == DIALOG_SPEAKERS[index] && r.text == DIALOG_TEXTS[index]
    ensures r.startTime == 4.0 * index as real && r.endTime == r.startTime + 4.0
    ensures 0.98 <= r.confidence < 1.0
    ensures r.id == "seg_" + NatToString(now) + "_" + NatToString(index)
  {
    SpeakerSegment(
      "seg_" + NatToString(now) + "_" + NatToString(index),
      DIALOG_SPEAKERS[index],
      DIALOG_TEXTS[index],
      (index * 4) as real,
      ((index + 1) * 4) as real,
      0.98 + rand * 0.02)
  }

  /**
   * With the snapshot read by the interval closure, the first four ticks from an empty registry
   * register four identities, two of them for `spk_known_1` and with different colours; a rename
   * made after the first tick is overwritten by the fourth.
   */
  lemma StaleStreamOverwritesRename()
    ensures var regs := StaleRegistrations(EMPTY, StreamCandidates(4));
      |regs| == 4 && regs[0].id == regs[3].id == "spk_known_1" &&
      regs[0].color == "bg-blue-600" && regs[3].color == "bg-purple-600" &&
      RegisterAll(Rename(RegisterAll(EMPTY, regs[..1]), "spk_known_1", "Alice"), regs[1..])["spk_known_1"] == regs[3]
  {
    StaleStreamRegistersAll();
    var regs := StaleRegistrations(EMPTY, StreamCandidates(4));
    var renamed := Rename(RegisterAll(EMPTY, regs[..1]), "spk_known_1", "Alice");
    RegisterAllThree(renamed, regs[1..]);
    assert regs[1..][2] == regs[3];
  }

  /** From an empty snapshot, the first four stream candidates are all registered. */
  lemma StaleStreamRegistersAll()
    ensures var regs := StaleRegistrations(EMPTY, StreamCandidates(4));
      |regs| == 4 && regs[0].id == regs[3].id == "spk_known_1" &&
      regs[0].color == "bg-blue-600" && regs[3].color == "bg-purple-600"
  {
    var cands := StreamCandidates(4);
    FilterKeepsAll(cands, (c: SpeakerIdentity) => c.id !in EMPTY);
    assert cands[0] == StreamSpeaker(0) && cands[3] == StreamSpeaker(3);
  }

  lemma RegisterAllThree(reg: Registry, regs: seq<SpeakerIdentity>)
    requires |regs| == 3
    ensures RegisterAll(reg, regs) == Register(Register(Register(reg, regs[0]), regs[1]), regs[2])
  {
    var r1 := Register(reg, regs[0]);
    var t := regs[1..];
    var r2 := Register(r1, t[0]);
    var u := t[1..];
    assert u[1..] == [];
    assert RegisterAll(reg, regs) == RegisterAll(r1, t);
    assert RegisterAll(r1, t) == RegisterAll(r2, u);
    assert RegisterAll(r2, u) == RegisterAll(Register(r2, u[0]), u[1..]);
  }

  // ---------------------------------------------------------------------------------------------
  // File analysis

  /** One utterance returned by the conversation-analysis service. */
  datatype Utterance = Utterance(speaker: string, text: string, startTime: real, endTime: real)

  /** `replace(/\s+/g, '_')`: every maximal run of white space becomes one underscore. */
  function CollapseWhitespace(s: string): (r: string)
    ensures forall i :: 0 <= i < |r| ==> !IsWhitespace(r[i])
    ensures |r| <= |s|
    ensures r == [] <==> s == []
    decreases |s|
  {
    if s == [] then []
    else if IsWhitespace(s[0]) then "_" + CollapseWhitespace(TrimStart(s[1..]))
    else [s[0]] + CollapseWhitespace(s[1..])
  }

  /** The id a file-analysis label is filed under. */
  function SpeakerId(tag: string): (r: string)
    ensures |r| >= 4 && r[..4] == "spk_"
    ensures forall i :: 4 <= i < |r| ==> !IsWhitespace(r[i]) && !('A' <= r[i] <= 'Z')
  {
    "spk_" + ToLower(CollapseWhitespace(tag))
  }

  /** A label with no white space keeps its characters, lowercased. */
  lemma {:induction false} CollapseNoWhitespace(s: string)
    requires forall i :: 0 <= i < |s| ==> !IsWhitespace(s[i])
    ensures CollapseWhitespace(s) == s
    decreases |s|
  {
    if s != [] {
      CollapseNoWhitespace(s[1..]);
      assert [s[0]] + s[1..] == s;
    }
  }

  /** Skipping a blank prefix lands on the first character that is not white space. */
  lemma {:induction false} TrimStartBlankPrefix(w: string, b: string)
    requires IsBlank(w) && (b == [] || !IsWhitespace(b[0]))
    ensures TrimStart(w + b) == b
    decreases |w|
  {
    if w == [] {
      assert w + b == b;
    } else {
      assert (w + b)[1..] == w[1..] + b;
      TrimStartBlankPrefix(w[1..], b);
    }
  }

  /**
   * Labels that differ only in the length or kind of a white-space run share one id, so distinct
   * labels can merge into one speaker.
   */
  lemma SpeakerIdIgnoresRunLength(a: string, w: string, b: string)
    requires forall i :: 0 <= i < |a| ==> !IsWhitespace(a[i])
    requires w != [] && IsBlank(w) && (b == [] || !IsWhitespace(b[0]))
    ensures SpeakerId(a + w + b) == SpeakerId(a + " " + b)
  {
    assert a + w + b == a + (w + b);
    assert a + " " + b == a + (" " + b);
    CollapseSplit(a, w + b);
    CollapseSplit(a, " " + b);
    CollapseRun(w, b);
    CollapseRun(" ", b);
  }

  /** A white-space run followed by a non-white character collapses to one underscore. */
  lemma CollapseRun(w: string, b: string)
    requires w != [] && IsBlank(w) && (b == [] || !IsWhitespace(b[0]))
    ensures CollapseWhitespace(w + b) == "_" + CollapseWhitespace(b)
  {
    assert (w + b)[0] == w[0];
    assert (w + b)[1..] == w[1..] + b;
    TrimStartBlankPrefix(w[1..], b);
  }

  /** Lowercasing neither creates nor removes white space. */
  lemma WhitespaceLower(c: char)
    ensures IsWhitespace(ToLowerChar(c)) == IsWhitespace(c)
  {
    if 'A' <= c <= 'Z' {
      assert 'a' <= ToLowerChar(c) <= 'z';
    }
  }

  lemma ToLowerAppend(a: string, b: string)
    ensures ToLower(a + b) == ToLower(a) + ToLower(b)
  {
    assert forall i :: 0 <= i < |a + b| ==> ToLower(a + b)[i] == (ToLower(a) + ToLower(b))[i];
  }

  /** Collapsing commutes with lowercasing. */
  lemma {:induction false} CollapseToLower(s: string)
    ensures CollapseWhitespace(ToLower(s)) == ToLower(CollapseWhitespace(s))
    decreases |s|
  {
    if s != [] {
      var l := ToLower(s);
      assert l[1..] == ToLower(s[1..]);
      WhitespaceLower(s[0]);
      if IsWhitespace(s[0]) {
        var t := TrimStart(s[1..]);
        TrimStartToLower(s[1..]);
        CollapseToLower(t);
        ToLowerAppend("_", CollapseWhitespace(t));
        assert ToLower("_") == "_";
      } else {
        CollapseToLower(s[1..]);
        ToLowerAppend([s[0]], CollapseWhitespace(s[1..]));
      }
    }
  }

  lemma {:induction false} TrimStartToLower(s: string)
    ensures TrimStart(ToLower(s)) == ToLower(TrimStart(s))
    decreases |s|
  {
    if s != [] {
      var l := ToLower(s);
      assert l[1..] == ToLower(s[1..]);
      WhitespaceLower(s[0]);
      TrimStartToLower(s[1..]);
    }
  }

  /** Labels that differ only in ASCII case share one id. */
  lemma SpeakerIdIgnoresCase(s: string)
    ensures SpeakerId(ToLower(s)) == SpeakerId(s)
  {
    CollapseToLower(s);
    ToLowerIdempotent(CollapseWhitespace(s));
  }

  /** White-space-free text before a run collapses independently of what follows. */
  lemma {:induction false} CollapseSplit(a: string, b: string)
    requires forall i :: 0 <= i < |a| ==> !IsWhitespace(a[i])
    ensures CollapseWhitespace(a + b) == a + CollapseWhitespace(b)
    decreases |a|
  {
    if a != [] {
      assert (a + b)[1..] == a[1..] + b;
      CollapseSplit(a[1..], b);
    } else {
      assert a + b == b;
    }
  }

  /** The identity file analysis proposes for utterance `index`: never a known speaker. */
  function AnalysisSpeaker(u: Utterance, index: nat): (r: SpeakerIdentity)
    ensures r.id == SpeakerId(u.speaker) && r.avatarSeed == r.id && r.name == u.speaker
    ensures !r.isKnown && r.source == None
    ensures r.color == if index % 2 == 0 then "bg-indigo-600" else "bg-rose-500"
  {
    SpeakerIdentity(SpeakerId(u.speaker), u.speaker,
      if index % 2 == 0 then "bg-indigo-600" else "bg-rose-500", false, SpeakerId(u.speaker), None)
  }

  function AnalysisCandidates(data: seq<Utterance>): (r: seq<SpeakerIdentity>)
    ensures |r| == |data| && forall i :: 0 <= i < |data| ==> r[i] == AnalysisSpeaker(data[i], i)
  {
    seq(|data|, i requires 0 <= i < |data| => AnalysisSpeaker(data[i], i))
  }

  /** The segments of an analysis result, one per utterance in order, at confidence 0.95. */
  function AnalysisSegments(data: seq<Utterance>, now: nat): (r: seq<SpeakerSegment>)
    ensures |r| == |data|
    ensures forall i :: 0 <= i < |data| ==>
      r[i].speakerId == SpeakerId(data[i].speaker) && r[i].text == data[i].text &&
      r[i].startTime == data[i].startTime && r[i].endTime == data[i].endTime &&
      r[i].confidence == 0.95 && r[i].id == "seg_" + NatToString(now) + "_" + NatToString(i)
  {
    seq(|data|, i requires 0 <= i < |data| =>
      SpeakerSegment("seg_" + NatToString(now) + "_" + NatToString(i), SpeakerId(data[i].speaker),
        data[i].text, data[i].startTime, data[i].endTime, 0.95))
  }

  /** Within one analysis, the snapshot read by the `map` callback registers a repeated label twice. */
  lemma StaleAnalysisRegistersTwice()
    ensures var data := [Utterance("Alice", "hi", 0.0, 1.0), Utterance("Alice", "bye", 1.0, 2.0)];
      var regs := StaleRegistrations(map[], AnalysisCandidates(data));
      |regs| == 2 && regs[0].id == regs[1].id && regs[0].color != regs[1].color &&
      |LiveRegistrations(map[], AnalysisCandidates(data))| == 1
  {
    var data := [Utterance("Alice", "hi", 0.0, 1.0), Utterance("Alice", "bye", 1.0, 2.0)];
    var c := AnalysisCandidates(data);
    FilterKeepsAll(c, (s: SpeakerIdentity) => s.id !in EMPTY);
    var m1 := Register(map[], c[0]);
    assert c[1..][1..] == [];
    assert LiveRegistrations(m1, c[1..]) == [];
  }

  // ---------------------------------------------------------------------------------------------
  // Time display

  /** `Math.floor(seconds / 60)`: the whole minutes of the whole seconds. */
  function Minutes(seconds: real): (r: nat)
    requires seconds >= 0.0
    ensures r == seconds.Floor / 60
  {
    FloorArithmetic(seconds);
    (seconds / 60.0).Floor
  }

  /** `Math.floor(seconds % 60)`: the whole seconds past the last full minute. */
  function Seconds(seconds: real): (r: nat)
    requires seconds >= 0.0
    ensures r == seconds.Floor % 60
  {
    FloorArithmetic(seconds);
    (seconds - 60.0 * (seconds / 60.0).Floor as real).Floor
  }

  /** `formatTime` on a segment time in seconds: the display of its whole seconds. */
  function FormatSegmentTime(seconds: real): (r: string)
    requires seconds >= 0.0
    ensures r == TimeFormat.FormatTime(seconds.Floor as nat)
  {
    TimeFormat.PadTwo(NatToString(Minutes(seconds))) + ":" + TimeFormat.PadTwo(NatToString(Seconds(seconds)))
  }

  lemma FloorArithmetic(s: real)
    requires s >= 0.0
    ensures (s / 60.0).Floor == s.Floor / 60
    ensures (s - 60.0 * (s / 60.0).Floor as real).Floor == s.Floor % 60
  {
    var k := (s / 60.0).Floor;
    var n := s.Floor;
    assert 60.0 * k as real <= s < 60.0 * k as real + 60.0;
    assert n as real <= s < n as real + 1.0;
    assert 60 * k <= n < 60 * k + 60;
  }

  // ---------------------------------------------------------------------------------------------
  // The screen

  class DiarizationScreen {
    var registry: Registry
    var segments: seq<SpeakerSegment>
    var isRecording: bool
    var recordTime: nat
    /** Whether the stream interval is live, and the index its closure advances. */
    var streaming: bool
    var streamIndex: nat
    var hasFile: bool
    var isProcessing: bool
    var error: Option<string>
    var editingId: Option<string>
    var tempName: string

    ghost predicate Valid()
      reads this
    {
      streamIndex <= DIALOG_LENGTH && (streaming ==> isRecording)
    }

    constructor (reg: Registry)
      ensures Valid()
      ensures registry == reg && segments == [] && !isRecording && recordTime == 0
      ensures !streaming && !hasFile && !isProcessing && error == None && editingId == None
    {
      registry, segments, isRecording, recordTime := reg, [], false, 0;
      streaming, streamIndex, hasFile, isProcessing := false, 0, false, false;
      error, editingId, tempName := None, None, "";
    }

    /**
     * The record button. Starting empties the segments and starts the stream at line 0; stopping
     * clears the intervals. The elapsed time is never reset.
     */
    method ToggleRecording()
      requires Valid()
      modifies this`isRecording, this`streaming, this`streamIndex, this`segments
      ensures Valid()
      ensures isRecording == !old(isRecording)
      ensures old(isRecording) ==> (!streaming && segments == old(segments))
      ensures !old(isRecording) ==> (streaming && streamIndex == 0 && segments == [])
    {
      if isRecording {
        isRecording, streaming := false, false;
      } else {
        isRecording, streaming, streamIndex, segments := true, true, 0, [];
      }
    }

    /** Selecting the upload tab stops any recording. */
    method SelectUploadTab()
      requires Valid()
      modifies this`isRecording, this`streaming
      ensures Valid() && !isRecording && !streaming
    {
      isRecording, streaming := false, false;
    }

    /** One second of the recording timer. */
    method RecordTick()
      requires isRecording
      modifies this`recordTime
      ensures recordTime == old(recordTime) + 1
    {
      recordTime := recordTime + 1;
    }

    /**
     * One tick of the stream interval with the clock and a random draw. While lines remain, the
     * line's speaker is registered if the registry lacks it, and its segment is appended; after
     * the last line the interval is cleared.
     */
    method StreamTick(now: nat, rand: real)
      requires Valid() && streaming && 0.0 <= rand < 1.0
      modifies this`registry, this`segments, this`streamIndex, this`streaming
      ensures Valid()
      ensures old(streamIndex) < DIALOG_LENGTH ==> (
        streaming && streamIndex == old(streamIndex) + 1 &&
        segments == old(segments) + [StreamSegment(old(streamIndex), now, rand)] &&
        registry == RegisterAll(old(registry), LiveRegistrations(old(registry), [StreamSpeaker(old(streamIndex))])) &&
        segments[|segments| - 1].speakerId in registry)
      ensures old(streamIndex) >= DIALOG_LENGTH ==> (
        !streaming && streamIndex == old(streamIndex) && segments == old(segments) && registry == old(registry))
      ensures forall id :: id in old(registry) ==> id in registry && registry[id] == old(registry)[id]
    {
      if streamIndex < DIALOG_LENGTH {
        var speaker := StreamSpeaker(streamIndex);
        if speaker.id !in registry {
          registry := Register(registry, speaker);
        }
        segments := segments + [StreamSegment(streamIndex, now, rand)];
        streamIndex := streamIndex + 1;
      } else {
        streaming := false;
      }
    }

    /** The file input's change: the first chosen file, which is absent when the choice is empty. */
    method SelectFile(chosen: bool)
      modifies this`hasFile
      ensures hasFile == chosen
    {
      hasFile := chosen;
    }

    /** The remove control of the chosen file. */
    method RemoveFile()
      modifies this`hasFile
      ensures !hasFile
    {
      hasFile := false;
    }

    /** The synchronous start of `processAudioFile`; nothing happens without a file. */
    method BeginAnalysis()
      modifies this`isProcessing, this`error, this`segments
      ensures !old(hasFile) ==> (isProcessing == old(isProcessing) && error == old(error) &&
        segments == old(segments))
      ensures old(hasFile) ==> (isProcessing && error == None && segments == [])
    {
      if !hasFile {
        return;
      }
      isProcessing, error, segments := true, None, [];
    }

    /**
     * The completion of `processAudioFile` with the service's outcome. A result replaces the
     * segments and registers each new label the first time it occurs; an error is shown and
     * registers nothing. Processing ends either way.
     */
    method FinishAnalysis(outcome: Result<seq<Utterance>>, now: nat)
      modifies this`registry, this`segments, this`error, this`isProcessing
      ensures !isProcessing
      ensures outcome.Ok? ==> (error == old(error) && segments == AnalysisSegments(outcome.value, now) &&
        registry == RegisterAll(old(registry), LiveRegistrations(old(registry), AnalysisCandidates(outcome.value))) &&
        forall i :: 0 <= i < |segments| ==> segments[i].speakerId in registry)
      ensures outcome.Err? ==> (
        error == Some(if outcome.message != "" then outcome.message else ANALYSIS_FAILED) &&
        registry == old(registry) && segments == old(segments))
    {
      match outcome {
        case Ok(data) =>
          var cands := AnalysisCandidates(data);
          registry := RegisterAll(registry, LiveRegistrations(registry, cands));
          segments := AnalysisSegments(data, now);
        case Err(message) =>
          error := Some(if message != "" then message else ANALYSIS_FAILED);
      }
      isProcessing := false;
    }

    /** The edit button of a registered speaker starts editing with its current name. */
    method StartEditing(id: string)
      requires id in registry
      modifies this`editingId, this`tempName
      ensures editingId == Some(id) && tempName == registry[id].name
    {
      editingId, tempName := Some(id), registry[id].name;
    }

    /**
     * `saveSpeakerName`: with a speaker being edited and a name that is not blank, the untrimmed
     * name is merged into that speaker, which becomes known, and editing ends.
     */
    method SaveSpeakerName()
      modifies this`registry, this`editingId
      ensures (old(editingId).Some? && !IsBlank(tempName)) ==> (
        registry == Rename(old(registry), old(editingId).value, tempName) && editingId == None)
      ensures !(old(editingId).Some? && !IsBlank(tempName)) ==> (
        registry == old(registry) && editingId == old(editingId))
    {
      TrimEmptyIff(tempName);
      if editingId.Some? && Trim(tempName) != [] {
        registry := Rename(registry, editingId.value, tempName);
        editingId := None;
      }
    }

    /**
     * `handleRemoveSpeaker` with the answer to the confirmation dialogue: an absent id is ignored,
     * a known speaker is demoted, and an unknown one is deleted only when confirmed.
     */
    method HandleRemoveSpeaker(id: string, confirmed: bool)
      modifies this`registry
      ensures id !in old(registry) ==> registry == old(registry)
      ensures id in old(registry) && old(registry)[id].isKnown ==>
        registry == old(registry)[id := old(registry)[id].(isKnown := false,
          name := if IsKnownId(id) then RESET_VISITOR_NAME else UNKNOWN_NAME)]
      ensures id in old(registry) && !old(registry)[id].isKnown ==>
        registry == if confirmed then old(registry) - {id} else old(registry)
    {
      if id !in registry {
        return;
      }
      var speaker := registry[id];
      if speaker.isKnown {
        registry := registry[id := speaker.(isKnown := false,
          name := if IsKnownId(id) then RESET_VISITOR_NAME else UNKNOWN_NAME)];
      } else if confirmed {
        registry := registry - {id};
      }
    }

    /** `handleClearAll`: when confirmed the segments are emptied; the registry is never touched. */
    method HandleClearAll(confirmed: bool)
      modifies this`segments
      ensures segments == if confirmed then [] else old(segments)
    {
      if confirmed {
        segments := [];
      }
    }
  }
}
