/** The entities of the application's shared type declarations (`types.ts`). */
module Types {
  import opened Wrappers

  /** The sub-pages of the voice module and of the prompt module. */
  datatype Page =
    | Home | Preset | Custom | Asr | Tts | VoiceCloning | Voiceprint | LiveChat
    | PromptDiscover | PromptFavorites | PromptMine | PromptCreate

  /** The top-level modules, including the four digital-human sub-modules. */
  datatype AppModule = DigitalHuman | AiVoice | PromptLibrary | DhAudio | DhChat | DhAvatar | Dh3d

  datatype Gender = Male | Female

  datatype Language = Chinese | English

  datatype Category = SocialMedia | Character | Narrator | News

  datatype VoiceSource = PresetSource | CommunitySource | CustomSource

  /**
   * A synthesizable voice. Optional text fields are `Option`s; the optional flags `isCustom`,
   * `isFavorite` and `isPublic` are only ever tested for truthiness, so absent reads as false.
   */
  datatype Voice = Voice(
    id: string,
    name: string,
    gender: Gender,
    language: Language,
    tags: seq<string>,
    notes: Option<string>,
    category: Category,
    previewUrl: Option<string>,
    avatarUrl: string,
    isCustom: bool,
    isFavorite: bool,
    isPublic: bool,
    flag: Option<string>,
    description: Option<string>,
    source: Option<VoiceSource>)

  datatype SpeakerSource = Cloned | Detected

  /** A recognised or provisional speaker identity held in the speaker registry. */
  datatype SpeakerIdentity = SpeakerIdentity(
    id: string,
    name: string,
    color: string,
    isKnown: bool,
    avatarSeed: string,
    source: Option<SpeakerSource>)

  /** One attributed utterance; times are in seconds. */
  datatype SpeakerSegment = SpeakerSegment(
    id: string,
    speakerId: string,
    text: string,
    startTime: real,
    endTime: real,
    confidence: real)
}
