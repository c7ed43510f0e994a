/**
 * The voice-cloning screen: capture of a sample by upload or recording, the simulated cloning
 * job that adds a custom voice on success, and the editing of custom voices.
 */
module VoiceCloning {
  import opened Wrappers
  import opened Seqs
  import opened Text
  import opened Types
  import opened VoiceCatalog
  import VoiceLibrary

  const DEMO_AUDIO: string := "https://interactive-examples.mdn.mozilla.net/media/cc0-audio/t-rex-roar.mp3"
  const SUCCESS_MESSAGE: string := "声音克隆成功！已添加到您的自定义声音库。"
  const FAILURE_MESSAGE: string := "声音采样率过低，克隆失败，请尝试更高质量的录音。"
  /** A cloning job succeeds when its random draw exceeds this threshold. */
  const FAILURE_RATE: real := 0.05

  /** `customVoices`: the voices made by the user, in registry order. */
  function CustomVoices(voices: seq<Voice>): (r: seq<Voice>)
    ensures forall i :: 0 <= i < |r| ==> IsCustomVoice(r[i]) && r[i] in voices
    ensures forall i :: 0 <= i < |voices| && IsCustomVoice(voices[i]) ==> voices[i] in r
    ensures IsSubsequence(r, voices)
  {
    Filter(voices, IsCustomVoice)
  }

  /** The cloning screen lists the same voices as the custom tab of the library with no filter set. */
  lemma CustomVoicesMatchLibrary(voices: seq<Voice>)
    ensures CustomVoices(voices) == VoiceLibrary.FilteredVoices(voices, Custom, None, None, "")
  {
    VoiceLibrary.ClearedFiltersListTab(voices, Custom);
  }

  /** The non-empty pieces of a tag text; unlike the library editor, no piece is trimmed or tested for blankness. */
  function SplitTags(s: string): (r: seq<string>)
    ensures forall i :: 0 <= i < |r| ==> r[i] != "" && SepFree(r[i], IsTagSep)
    ensures IsSubsequence(r, Split(s, IsTagSep))
    ensures forall i :: 0 <= i < |r| ==> r[i] in Split(s, IsTagSep)
    ensures forall k :: 0 <= k < |Split(s, IsTagSep)| && Split(s, IsTagSep)[k] != "" ==> Split(s, IsTagSep)[k] in r
  {
    var r := Filter(Split(s, IsTagSep), (t: string) => t != "");
    assert forall i :: 0 <= i < |r| ==> r[i] in Split(s, IsTagSep);
    r
  }

  /** The tags of a new voice: "Custom" without a description, else the pieces of the description. */
  function CloneTags(description: string): (r: seq<string>)
    ensures description == "" ==> r == ["Custom"]
    ensures description != "" ==> r == SplitTags(description)
  {
    if description == "" then ["Custom"] else SplitTags(description)
  }

  /** Splitting a string made only of separators gives empty pieces only. */
  lemma {:induction false} SplitOfSeparators(s: string)
    requires forall i :: 0 <= i < |s| ==> IsTagSep(s[i])
    ensures forall k :: 0 <= k < |Split(s, IsTagSep)| ==> Split(s, IsTagSep)[k] == ""
  {
    if s != [] {
      SplitOfSeparators(s[1..]);
    }
  }

  /** A non-empty description made only of separators gives a voice with no tags at all. */
  lemma SeparatorsOnlyGiveNoTags(description: string)
    requires description != ""
    requires forall i :: 0 <= i < |description| ==> IsTagSep(description[i])
    ensures CloneTags(description) == []
  {
    SplitOfSeparators(description);
  }

  /** The same tags are accepted back unchanged from the editor's ", " join. */
  lemma EditTagsRoundTrip(tags: seq<string>)
    requires forall k :: 0 <= k < |tags| ==> tags[k] != "" && SepFree(tags[k], IsTagSep)
    ensures SplitTags(Join(tags, ", ")) == tags
  {
    TagsRoundTrip(tags, (t: string) => t != "");
  }

  /** The voice a successful job finished at millisecond `now` adds: a public custom voice. */
  function NewClonedVoice(name: string, description: string, now: nat): (r: Voice)
    ensures r.id == "custom_" + NatToString(now) && r.name == name
    ensures r.tags == CloneTags(description)
    ensures r.source == Some(CustomSource) && r.isCustom && r.isPublic && !r.isFavorite
    ensures r.gender == Male && r.language == Chinese && r.category == Character
    ensures r.avatarUrl == "https://api.dicebear.com/7.x/pixel-art/svg?seed=" + name
    ensures r.previewUrl == Some(DEMO_AUDIO)
    ensures IsCustomVoice(r) && !IsPresetVoice(r)
  {
    Voice("custom_" + NatToString(now), name, Male, Chinese, CloneTags(description), None, Character,
      Some(DEMO_AUDIO), "https://api.dicebear.com/7.x/pixel-art/svg?seed=" + name, true, false, true,
      None, None, Some(CustomSource))
  }

  /** Once added, a cloned voice is listed by the cloning screen wherever the registry puts it. */
  lemma ClonedVoiceIsListed(voices: seq<Voice>, i: nat, name: string, description: string, now: nat)
    requires i < |voices| && voices[i] == NewClonedVoice(name, description, now)
    ensures NewClonedVoice(name, description, now) in CustomVoices(voices)
  {
  }

  datatype CaptureTab = UploadTab | RecordTab

  /** The banner a finished job shows. */
  datatype CloneOutcome = CloneOutcome(success: bool, message: string)

  class CloningScreen {
    var activeTab: CaptureTab
    /** The chosen or recorded sample, by file name. */
    var file: Option<string>
    var isRecording: bool
    var recordTime: nat
    var projectName: string
    var description: string
    var isCloning: bool
    var outcome: Option<CloneOutcome>
    var editingId: Option<string>
    var editName: string
    var editTags: string
    var requests: seq<VoiceRequest>
    /** The name and description the running job captured when it started. */
    var pendingName: string
    var pendingDescription: string

    ghost predicate Valid()
      reads this
    {
      isCloning ==> pendingName != ""
    }

    constructor ()
      ensures Valid()
      ensures activeTab == UploadTab && file == None && !isRecording && recordTime == 0
      ensures projectName == "" && description == "" && !isCloning && outcome == None
      ensures editingId == None && requests == []
    {
      activeTab, file, isRecording, recordTime := UploadTab, None, false, 0;
      projectName, description, isCloning, outcome := "", "", false, None;
      editingId, editName, editTags, requests := None, "", "", [];
      pendingName, pendingDescription := "", "";
    }

    /** Choosing either capture tab discards the current sample. */
    method SelectTab(tab: CaptureTab)
      modifies this`activeTab, this`file
      ensures activeTab == tab && file == None
    {
      activeTab, file := tab, None;
    }

    /** `handleFileUpload`: a chosen file becomes the sample; cancelling the dialogue keeps the old one. */
    method HandleFileUpload(chosen: Option<string>)
      modifies this`file
      ensures file == if chosen.Some? then chosen else old(file)
    {
      if chosen.Some? {
        file := chosen;
      }
    }

    method OnStartRecording()
      modifies this`isRecording
      ensures isRecording
    {
      isRecording := true;
    }

    /** `onStopRecording(duration)` at millisecond `now`: the recording becomes the sample. */
    method OnStopRecording(duration: nat, now: nat)
      modifies this`isRecording, this`recordTime, this`file
      ensures !isRecording && recordTime == duration
      ensures file == Some("recorded_sample_" + NatToString(now) + ".wav")
    {
      isRecording, recordTime := false, duration;
      file := Some("recorded_sample_" + NatToString(now) + ".wav");
    }

    /**
     * The create button, disabled while a job runs: without a project name or a sample nothing
     * happens; otherwise the job starts with the current name and description.
     */
    method HandleCreate()
      requires Valid() && !isCloning
      modifies this`isCloning, this`pendingName, this`pendingDescription
      ensures Valid()
      ensures (projectName == "" || file == None) ==> !isCloning
      ensures (projectName != "" && file != None) ==> (isCloning &&
        pendingName == projectName && pendingDescription == description)
    {
      if projectName == "" || file == None {
        return;
      }
      isCloning := true;
      pendingName, pendingDescription := projectName, description;
    }

    /**
     * The end of the job at millisecond `now` with a random draw. On success exactly one voice is
     * added and the form is cleared; on failure nothing is added and the form is kept.
     */
    method CompleteCreate(rand: real, now: nat)
      requires Valid() && isCloning
      modifies this`isCloning, this`requests, this`outcome, this`projectName, this`description, this`file
      ensures Valid() && !isCloning
      ensures rand > FAILURE_RATE ==> (
        requests == old(requests) + [AddVoice(NewClonedVoice(pendingName, pendingDescription, now))] &&
        outcome == Some(CloneOutcome(true, SUCCESS_MESSAGE)) &&
        projectName == "" && description == "" && file == None)
      ensures rand <= FAILURE_RATE ==> (
        requests == old(requests) && outcome == Some(CloneOutcome(false, FAILURE_MESSAGE)) &&
        projectName == old(projectName) && description == old(description) && file == old(file))
    {
      isCloning := false;
      if rand > FAILURE_RATE {
        requests := requests + [AddVoice(NewClonedVoice(pendingName, pendingDescription, now))];
        outcome := Some(CloneOutcome(true, SUCCESS_MESSAGE));
        projectName, description, file := "", "", None;
      } else {
        outcome := Some(CloneOutcome(false, FAILURE_MESSAGE));
      }
    }

    /** The reset button. */
    method ResetForm()
      modifies this`file, this`projectName, this`description
      ensures file == None && projectName == "" && description == ""
    {
      file, projectName, description := None, "", "";
    }

    /** `startEditing`: loads the voice's id, its name and its tags joined by ", ". */
    method StartEditing(v: Voice)
      modifies this`editingId, this`editName, this`editTags
      ensures editingId == Some(v.id) && editName == v.name && editTags == Join(v.tags, ", ")
    {
      editingId, editName, editTags := Some(v.id), v.name, Join(v.tags, ", ");
    }

    /**
     * `saveEdit`: with a voice being edited, only its name and tags are sent, and editing ends.
     * The code tests the id for truthiness; ids are never empty, so `Some` stands for that test.
     */
    method SaveEdit()
      modifies this`requests, this`editingId
      ensures old(editingId).Some? ==> (editingId == None &&
        requests == old(requests) + [UpdateVoice(old(editingId).value, editName, SplitTags(editTags))])
      ensures old(editingId).None? ==> (editingId == None && requests == old(requests))
    {
      if editingId.Some? {
        requests := requests + [UpdateVoice(editingId.value, editName, SplitTags(editTags))];
        editingId := None;
      }
    }

    /** The delete control with the answer to the confirmation dialogue: the voice is deleted only when confirmed. */
    method Delete(id: string, confirmed: bool)
      modifies this`requests
      ensures requests == if confirmed then old(requests) + [DeleteVoice(id)] else old(requests)
    {
      if confirmed {
        requests := requests + [DeleteVoice(id)];
      }
    }
  }
}
