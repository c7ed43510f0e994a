# AIGC platform voice suite — a Dafny model

This project models the client-side behaviour of a single-page AIGC platform front end. The
application has three modules. The **AI voice** module holds six screens:

- a home screen with featured voices, a voice picker and a text box;
- speech recognition (ASR), with a live session clamped at three minutes, file transcription and a log of 15 sessions;
- text-to-speech (TTS), with a simulated synthesis played through the global player and a log of 20 syntheses;
- voice cloning, which adds a custom voice to the shared voice registry;
- speaker diarization (voiceprint), with a scripted live stream, file analysis and a shared speaker registry;
- a voice library with tab, gender, category and name filters.

The **prompt library** module has a filter sidebar. The **digital human** module shows an
external product and is not modelled. Two voice input widgets and the application shell
complete the model.

Each screen is a class whose fields are the screen's state. Each handler, timer tick or async
completion is a method whose `ensures` states the whole new state. Pure helpers are functions
with contracts and lemmas, and the properties that relate several calls are lemmas.

The shared contexts are modelled as values:

- the speaker registry is a `map` from id to identity with insert, merge and delete;
- the calls a screen makes on the voice registry are a log of `VoiceRequest` values;
- the calls a screen makes on the global player are a log of `PlayerCall` values.

Values the source reads from outside are parameters of the methods that use them:

- the clock (`Date.now()` as a natural number, the local time as a string);
- `Math.random()` (a real in [0, 1));
- the answer to a `confirm()` dialogue;
- the outcome of a call into the generative service (a `Result`).

Modules and files:

| module | file | source |
|---|---|---|
| `Wrappers`, `Seqs`, `Text` | wrappers.dfy, seqs.dfy, text.dfy | `Option`/`Result`, filtering and the subsequence order, whitespace, trimming, ASCII lowercasing, substring search, split and join, decimal digits |
| `TimeFormat` | time_format.dfy | the `mm:ss` formatter defined in four files |
| `ClassNames` | class_names.dfy | the `cn` helper of the two widgets |
| `Types` | types.dfy | the records and enums of types.ts |
| `VoiceCatalog` | voice_catalog.dfy | the voice predicates shared by the voice screens, the voice picker filter, the registry requests and the tag separators |
| `App` | app.dfy | App.tsx |
| `Home`, `Asr`, `Tts`, `VoiceCloning`, `Diarization`, `VoiceLibrary` | home.dfy, asr.dfy, tts.dfy, voice_cloning.dfy, diarization.dfy, voice_library.dfy | pages/voice/*.tsx |
| `PromptSidebar` | prompt_sidebar.dfy | pages/prompts/components/PromptSidebar.tsx |
| `AiVoiceInput`, `DynamicVoiceButton` | ai_voice_input.dfy, dynamic_voice_button.dfy | components/AIVoiceInput.tsx, components/DynamicVoiceButton.tsx |

The classes follow the code, except for the corrected behaviours listed under "## Findings": the live stream's registrations, the analysis registrations, and the brand and the version notifications of the prompt sidebar. Behaviours of the code that the model keeps as they are:

- Removing a speaker reads the registry entry. A known speaker is demoted and renamed "访客 (已重置)" when its id contains `known`, and "未知身份" otherwise. An unknown speaker is deleted only after confirmation.
- Clearing the diarization screen empties the segments and leaves the registry alone.
- The cloning screen's tag editor drops only empty pieces. The library's tag editor drops blank ones.
- Deleting a voice does not reset the voice selected for synthesis. That fallback belongs to the voice context, which is not part of this model.

## Model

| member | source | states |
|---|---|---|
| App.InitialPage | App.tsx:32-34 | the first page is the prompt discovery page exactly for the prompt library module, and Home for every other module |
| App.LandingPage | App.tsx:38-42 | only the voice and prompt modules have a page the module effect sets, and it is the same page the module starts on |
| App.RenderSubPage | App.tsx:46-57 | each voice page has its own screen; Preset and Custom both open the library, with the page as its initial tab; every page without a case falls back to Home |
| App.RenderedAreas | App.tsx:121-127 | at most one module area is rendered, exactly the area of the current module, and none for the digital-human sub-modules |
| App.Shell.constructor | App.tsx:32-43 | mounting runs the module effect once: one player close and the module's initial page |
| App.Shell.RunModuleEffect | App.tsx:36-43 | the effect always closes the player once; it sets the landing page for the voice and prompt modules and keeps the page for the others |
| App.Shell.SetModule | App.tsx:36-43 | choosing the current module again changes nothing; a different module closes the player once and resets the page as the effect does |
| App.Shell.Navigate | App.tsx:48-62 | navigating from the sidebar or a screen sets the current page |
| TimeFormat.FormatTime | components/AIVoiceInput.tsx:72-76 | the display is two digit groups of at least two digits each around a colon, and exactly five characters below 100 minutes |
| TimeFormat.FormatTimeRoundTrip | pages/voice/ASR.tsx:160-164 | the `mm:ss` display reads back as the seconds it was made from, so different durations never show the same text |
| TimeFormat.FormatTimeShape | components/AIVoiceInput.tsx:72-76 | below 100 minutes the display is five characters, two digits holding the whole minutes, a colon and two digits holding the seconds below 60 |
| TimeFormat.PadTwo | components/DynamicVoiceButton.tsx:45 | `padStart(2, '0')` leaves strings of length two or more alone and left-fills shorter ones with zeros to length two |
| ClassNames.FalsyIgnored | components/AIVoiceInput.tsx:5-7 | a falsy argument anywhere contributes nothing to the class string |
| ClassNames.Cn | components/AIVoiceInput.tsx:5-7 | the class string is empty exactly when no argument is truthy, and otherwise starts with the first kept class |
| ClassNames.CnSplitsBack | components/DynamicVoiceButton.tsx:6-8 | splitting the class string on spaces gives back the kept classes, in order, when none holds a space |
| VoiceCatalog.FilteredModalVoices | pages/voice/Home.tsx:52-58 | the picker lists exactly the voices whose source is the tab's, or that are flagged custom on the custom tab, and whose lowercased name contains the lowercased search; registry order is kept |
| VoiceCatalog.ModalCustomTabIsCustomVoices | pages/voice/Home.tsx:52-58 | with an empty search the picker's custom tab lists exactly the custom voices |
| VoiceCatalog.ModalPresetTabIsPresetVoices | pages/voice/Home.tsx:52-58 | with an empty search the picker's preset tab lists exactly the preset voices |
| VoiceCatalog.TagsRoundTrip | pages/voice/VoiceLibrary.tsx:82-88 | tags joined by ", " and split on `[，, ]` come back unchanged once the empty pieces are dropped, when no tag holds a separator |
| Home.FeaturedVoices | pages/voice/Home.tsx:50 | the featured voices are exactly the preset voices, in registry order |
| Home.FeaturedMatchesOtherListings | pages/voice/Home.tsx:50-58 | the featured voices are what the library's preset tab lists with no filter, and what the picker's preset tab lists with an empty search |
| Home.TextareaHeight | pages/voice/Home.tsx:37 | the text area height is the content height clamped to [220, 600] |
| Home.SelectFromModal | pages/voice/Home.tsx:220 | picking a voice selects it and closes the picker |
| Home.GenerateEnabled | pages/voice/Home.tsx:101 | the generate button is enabled exactly when the text is not blank |
| Asr.Badge | pages/voice/ASR.tsx:257 | a log entry shows FILE for a transcribed upload, and otherwise a display that reads back as its duration |
| Asr.UploadError | pages/voice/ASR.tsx:137 | a failed upload always shows a non-empty error: the thrown message, or the default when that is empty |
| Asr.AsrScreen.constructor | pages/voice/ASR.tsx:79-86 | a new screen is idle, with an empty log and session key 0 |
| Asr.AsrScreen.AddToHistory | pages/voice/ASR.tsx:144-150 | the new entry is first, the old entries follow in order, and the log keeps at most 15 |
| Seqs.PrependAllKeepsNewest | pages/voice/ASR.tsx:144-150 | after any run of capped insertions the log holds the newest entries, newest first, up to the cap |
| Asr.AsrScreen.DeleteHistoryItem | pages/voice/ASR.tsx:166-169 | the entry at the index is removed and the others keep their order; an index out of range changes nothing |
| Asr.AsrScreen.Tick | pages/voice/ASR.tsx:93-100 | a second is counted up to 180; the tick after that stops the recording and holds the counter at 180 |
| Asr.AsrScreen.HandleStart | pages/voice/ASR.tsx:106-114 | a non-empty transcription is logged with its duration, and a new session starts with empty text, counter 0, no error and a new key |
| Asr.AsrScreen.StreamingTranscriptionArrives | pages/voice/ASR.tsx:118-121 | the simulated live text replaces the transcription |
| Asr.AsrScreen.HandleStop | pages/voice/ASR.tsx:116 | recording stops |
| Asr.AsrScreen.PressRecordButton | pages/voice/ASR.tsx:213-214 | the button stops a running session, keeping the log and the error, and otherwise starts one as `handleStart` does: archive a non-empty transcription, clear text, counter and error, and move the key on; it is disabled while a file is processed |
| Asr.AsrScreen.ClearTranscription | pages/voice/ASR.tsx:152-158 | a non-empty transcription of a stopped session is logged; then text, counter and error are reset and the key moves on |
| Asr.AsrScreen.BeginFileUpload | pages/voice/ASR.tsx:123-129 | with no file nothing happens; otherwise processing starts with no error, empty text and a new key |
| Asr.AsrScreen.FinishFileUpload | pages/voice/ASR.tsx:130-141 | a result is shown and logged with duration 0, which shows as FILE; a failure shows the error and logs nothing; processing ends either way |
| Asr.AsrScreen.RestoreFromHistory | pages/voice/ASR.tsx:251 | clicking an entry shows its text again under a new key |
| Tts.ResultIdsDistinct | pages/voice/TTS.tsx:62 | syntheses finished at different milliseconds get different ids |
| Tts.ResultVoice | pages/voice/TTS.tsx:60-65 | the result voice copies the selected voice except for its id, its preview (the demo clip) and its name, which is the selected name followed by " (合成结果)" |
| Tts.Snippet | pages/voice/TTS.tsx:69 | the logged text is the first min(length, 150) characters of the input |
| Tts.ItemFor | pages/voice/TTS.tsx:67-75 | a log entry holds the snippet, the voice's name, avatar and category, the result id, the time and the demo clip |
| Tts.CanGenerate | pages/voice/TTS.tsx:168 | the generate button is enabled exactly when no synthesis is running and the text is not empty once trimmed |
| Tts.HistoryVoice | pages/voice/TTS.tsx:104-116 | replay plays a voice with the entry's id, clip, avatar and category, a suffixed name, and the handler's literal defaults elsewhere |
| Tts.ReplayMatchesSynthesis | pages/voice/TTS.tsx:104-116 | replaying a log entry plays the same id, clip, avatar and category as the synthesis that created the entry |
| Tts.TtsScreen.constructor | pages/voice/TTS.tsx:33-45 | a new screen has an empty log and the default parameters |
| Tts.TtsScreen.BeginGenerate | pages/voice/TTS.tsx:49-54 | blank text does nothing; otherwise the job starts with the current text and voice, the error clears and the player is closed |
| Tts.TtsScreen.CompleteGenerate | pages/voice/TTS.tsx:56-82 | the entry is logged first, the log keeps at most 20 entries and only non-empty snippets, and the result voice is played |
| Tts.TtsScreen.PlayFromHistory | pages/voice/TTS.tsx:104-116 | clicking an entry plays its history voice |
| Tts.TtsScreen.DeleteHistoryItem | pages/voice/TTS.tsx:118-121 | every entry with that id goes and every other entry stays in order |
| Tts.TtsScreen.ResetParams | pages/voice/TTS.tsx:123-125 | speed 1.0, pitch 0, volume 1.0 and emotion natural are restored |
| Tts.TtsScreen.ClearText | pages/voice/TTS.tsx:186 | the eraser empties the text, which disables generation |
| VoiceLibrary.FilteredVoices | pages/voice/VoiceLibrary.tsx:58-71 | the filter chain never lists more voices than the registry holds |
| VoiceLibrary.FilteredVoicesIsOneFilter | pages/voice/VoiceLibrary.tsx:58-71 | the chain of optional filter steps equals one filter by the conjunction of tab, gender, category and name conditions |
| VoiceLibrary.FilteredVoicesSpec | pages/voice/VoiceLibrary.tsx:58-71 | every listed voice meets every set filter, every voice that does is listed, and registry order is kept |
| VoiceLibrary.ClearedFiltersListTab | pages/voice/VoiceLibrary.tsx:60-64 | with no filter set, the custom tab lists the custom voices and every other tab the preset voices |
| VoiceLibrary.Toggle | pages/voice/VoiceLibrary.tsx:161 | clicking the active filter clears it; clicking another selects it |
| VoiceLibrary.ToggleTwice | pages/voice/VoiceLibrary.tsx:169 | clicking the same filter twice from no filter, or from that filter, restores it, and from another filter clears it |
| VoiceLibrary.ParseTags | pages/voice/VoiceLibrary.tsx:88 | exactly the non-blank pieces of the split are kept, in the split's order, and none holds a separator |
| VoiceLibrary.EditTagsRoundTrip | pages/voice/VoiceLibrary.tsx:79-91 | editing the tags and saving without changes gives back the same tags, when none is blank or holds a separator |
| VoiceLibrary.LibraryScreen.constructor | pages/voice/VoiceLibrary.tsx:41 | the screen opens on its initial tab with no filter |
| VoiceLibrary.LibraryScreen.InitialTabChanged | pages/voice/VoiceLibrary.tsx:41 | a new initial tab becomes the active tab |
| VoiceLibrary.LibraryScreen.ClearFilters | pages/voice/VoiceLibrary.tsx:73-77 | gender, category and search are cleared and the tab lists all voices of its kind |
| VoiceLibrary.LibraryScreen.ToggleGender | pages/voice/VoiceLibrary.tsx:161 | the gender filter toggles |
| VoiceLibrary.LibraryScreen.ToggleCategory | pages/voice/VoiceLibrary.tsx:169 | the category filter toggles |
| VoiceLibrary.LibraryScreen.StartEditing | pages/voice/VoiceLibrary.tsx:79-83 | editing loads the id, the name and the tags joined by ", " |
| VoiceLibrary.LibraryScreen.SaveEdit | pages/voice/VoiceLibrary.tsx:85-91 | one update with the edited name and the parsed tags is sent and editing ends |
| VoiceLibrary.LibraryScreen.HandleDelete | pages/voice/VoiceLibrary.tsx:93-98 | the voice is deleted only when confirmed |
| VoiceCloning.CustomVoices | pages/voice/VoiceCloning.tsx:41 | the listed voices are exactly the custom voices, in registry order |
| VoiceCloning.CustomVoicesMatchLibrary | pages/voice/VoiceCloning.tsx:41 | the cloning screen lists what the library's custom tab lists with no filter |
| VoiceCloning.SplitTags | pages/voice/VoiceCloning.tsx:101 | exactly the non-empty pieces of the split are kept, in the split's order, and none holds a separator |
| VoiceCloning.CloneTags | pages/voice/VoiceCloning.tsx:72 | no description gives the single tag "Custom"; otherwise the tags are the non-empty pieces of the description |
| VoiceCloning.SeparatorsOnlyGiveNoTags | pages/voice/VoiceCloning.tsx:72 | any non-empty description made only of separators gives a voice with no tags |
| VoiceCloning.EditTagsRoundTrip | pages/voice/VoiceCloning.tsx:91-105 | editing tags and saving without changes gives back the same tags, when none is empty or holds a separator |
| VoiceCloning.NewClonedVoice | pages/voice/VoiceCloning.tsx:67-79 | a cloned voice is a public custom voice with the job's name, tags and timestamped id |
| VoiceCloning.ClonedVoiceIsListed | pages/voice/VoiceCloning.tsx:41 | once added, a cloned voice is listed by the cloning screen |
| VoiceCloning.CloningScreen.constructor | pages/voice/VoiceCloning.tsx:25-37 | a new screen is on the upload tab with no sample and nothing sent |
| VoiceCloning.CloningScreen.SelectTab | pages/voice/VoiceCloning.tsx:129 | switching capture tab discards the sample |
| VoiceCloning.CloningScreen.HandleFileUpload | pages/voice/VoiceCloning.tsx:43-45 | a chosen file becomes the sample, and cancelling keeps the old one |
| VoiceCloning.CloningScreen.OnStartRecording | pages/voice/VoiceCloning.tsx:47-50 | recording starts |
| VoiceCloning.CloningScreen.OnStopRecording | pages/voice/VoiceCloning.tsx:52-56 | recording stops, its length is kept and a timestamped sample becomes the file |
| VoiceCloning.CloningScreen.HandleCreate | pages/voice/VoiceCloning.tsx:58-60 | without a name or a sample nothing happens; otherwise the job starts with the current name and description |
| VoiceCloning.CloningScreen.CompleteCreate | pages/voice/VoiceCloning.tsx:62-88 | a draw above 0.05 adds exactly one cloned voice and clears the form; otherwise nothing is added, the form is kept and the failure is shown |
| VoiceCloning.CloningScreen.ResetForm | pages/voice/VoiceCloning.tsx:187 | the sample, the name and the description are cleared |
| VoiceCloning.CloningScreen.StartEditing | pages/voice/VoiceCloning.tsx:91-95 | editing loads the id, the name and the tags joined by ", " |
| VoiceCloning.CloningScreen.SaveEdit | pages/voice/VoiceCloning.tsx:97-105 | with a voice being edited, one update with the name and the split tags is sent and editing ends; otherwise nothing happens |
| VoiceCloning.CloningScreen.Delete | pages/voice/VoiceCloning.tsx:244 | the voice is deleted only when confirmed |
| Diarization.Register | pages/voice/Diarization.tsx:89-95 | registering stores the identity under its id and leaves every other entry alone |
| Diarization.Rename | pages/voice/Diarization.tsx:159 | a rename merges the name and the known flag into an existing entry only |
| Diarization.StaleRegistrations | pages/voice/Diarization.tsx:82-96 | as written: every candidate absent from the one snapshot is registered, repeats included |
| Diarization.LiveRegistrations | pages/voice/Diarization.tsx:87-96 | corrected: each absent speaker is registered once, the first time it is seen; every candidate ends up registered |
| Diarization.LiveKeepsExisting | pages/voice/Diarization.tsx:87 | live registration never changes an identity that is already registered |
| Diarization.IsKnownId | pages/voice/Diarization.tsx:88 | an id counts as known exactly when `known` occurs in it at some position |
| Diarization.KnownPrefixIsKnown | pages/voice/Diarization.tsx:30-36 | every id of the `spk_known_` family counts as known |
| Diarization.StreamSpeaker | pages/voice/Diarization.tsx:84-95 | the identity for a dialogue line: that line's id as id and seed, known exactly when the id contains `known`, the colour by line parity and the scripted name |
| Diarization.StreamSegment | pages/voice/Diarization.tsx:98-105 | the segment of line i runs from 4i to 4i+4 seconds with the line's speaker and text and a confidence in [0.98, 1) |
| Diarization.StaleStreamOverwritesRename | pages/voice/Diarization.tsx:82-96 | as written, four ticks from an empty registry register `spk_known_1` twice with different colours, and a rename made after the first tick is lost |
| Diarization.CollapseWhitespace | pages/voice/Diarization.tsx:127 | replacing white-space runs leaves no white space, never lengthens, and gives empty only for empty |
| Diarization.SpeakerId | pages/voice/Diarization.tsx:127 | an analysis id is `spk_` followed by characters that are neither white space nor upper-case ASCII |
| Diarization.SpeakerIdIgnoresRunLength | pages/voice/Diarization.tsx:127 | labels that differ only in the length of a white-space run get the same id |
| Diarization.SpeakerIdIgnoresCase | pages/voice/Diarization.tsx:127 | labels that differ only in ASCII case get the same id |
| Diarization.AnalysisSpeaker | pages/voice/Diarization.tsx:129-137 | an analysis identity carries the label as its name, is never known, and takes its colour from the utterance's parity |
| Diarization.AnalysisSegments | pages/voice/Diarization.tsx:139-146 | one segment per utterance, in order, with its id, text and times and confidence 0.95 |
| Diarization.StaleAnalysisRegistersTwice | pages/voice/Diarization.tsx:126-137 | as written, two utterances by one label register it twice with different colours; live registration registers it once |
| Diarization.Minutes | pages/voice/Diarization.tsx:164 | the floored minutes of a non-negative time are the whole seconds divided by 60 |
| Diarization.Seconds | pages/voice/Diarization.tsx:164 | the floored remainder of a non-negative time is the whole seconds modulo 60 |
| Diarization.FormatSegmentTime | pages/voice/Diarization.tsx:164 | a non-negative segment time shows as the `mm:ss` of its whole seconds |
| Diarization.DiarizationScreen.constructor | pages/voice/Diarization.tsx:40-56 | a new screen shows the shared registry and no segments |
| Diarization.DiarizationScreen.ToggleRecording | pages/voice/Diarization.tsx:327 | starting empties the segments and starts the stream at line 0; stopping clears both intervals |
| Diarization.DiarizationScreen.SelectUploadTab | pages/voice/Diarization.tsx:282 | the upload tab stops recording |
| Diarization.DiarizationScreen.RecordTick | pages/voice/Diarization.tsx:66 | a second is counted while recording |
| Diarization.DiarizationScreen.StreamTick | pages/voice/Diarization.tsx:82-112 | corrected: while lines remain, the line's segment is appended and its speaker registered only if absent from the current registry, so every segment's speaker is registered and existing identities are kept; after the last line the interval stops and nothing else changes (the code as written is Diarization.StaleRegistrations, shown wrong by Diarization.StaleStreamOverwritesRename) |
| Diarization.DiarizationScreen.SelectFile | pages/voice/Diarization.tsx:296 | the first chosen file is held, and an empty choice leaves no file |
| Diarization.DiarizationScreen.RemoveFile | pages/voice/Diarization.tsx:307 | removing the file leaves none |
| Diarization.DiarizationScreen.BeginAnalysis | pages/voice/Diarization.tsx:115-119 | without a file nothing happens; otherwise processing starts with no error and no segments |
| Diarization.DiarizationScreen.FinishAnalysis | pages/voice/Diarization.tsx:121-154 | corrected: a result replaces the segments and registers each new label once, so every segment's speaker is registered, and the error stays as the start of the analysis cleared it; a failure shows the error and changes nothing else (the code as written is Diarization.StaleRegistrations, shown wrong by Diarization.StaleAnalysisRegistersTwice) |
| Diarization.DiarizationScreen.StartEditing | pages/voice/Diarization.tsx:382 | editing loads the speaker's current name |
| Diarization.DiarizationScreen.SaveSpeakerName | pages/voice/Diarization.tsx:157-162 | with a speaker being edited and a non-blank name, the untrimmed name is merged in, the speaker becomes known and editing ends; otherwise nothing changes |
| Diarization.DiarizationScreen.HandleRemoveSpeaker | pages/voice/Diarization.tsx:176-191 | an absent id is ignored, a known speaker is demoted and renamed by its id, and an unknown one is deleted only when confirmed |
| Diarization.DiarizationScreen.HandleClearAll | pages/voice/Diarization.tsx:170-174 | when confirmed the segments are emptied; the registry is untouched |
| PromptSidebar.OrUndefined | pages/prompts/components/PromptSidebar.tsx:54-55 | the fallback to undefined turns null and the empty string into undefined and keeps every other value |
| PromptSidebar.Report | pages/prompts/components/PromptSidebar.tsx:9 | the notification of a filter state carries its categories, tags and logic, and its brand and version with empty values undefined |
| PromptSidebar.MergeOverrides | pages/prompts/components/PromptSidebar.tsx:51-59 | as written: each field comes from the override when it is defined, and otherwise from the render's state |
| PromptSidebar.BrandSelectNotice | pages/prompts/components/PromptSidebar.tsx:93 | as written: a chosen brand is reported, "all models" reports the previous brand, the version reported is always the previous one, and the other fields are the current ones |
| PromptSidebar.VersionSelectNotice | pages/prompts/components/PromptSidebar.tsx:98 | as written: a chosen version is reported, "all versions" reports the previous version, and the brand and other fields are the current ones |
| PromptSidebar.StaleBrandReported | pages/prompts/components/PromptSidebar.tsx:90-94 | as written: whenever a version is set, every brand selection reports something other than the state the sidebar then shows |
| PromptSidebar.StaleVersionReported | pages/prompts/components/PromptSidebar.tsx:96-99 | as written: choosing "all versions" while a version is set reports something other than the state the sidebar then shows |
| PromptSidebar.Toggled | pages/prompts/components/PromptSidebar.tsx:82-85 | toggling removes an entry that is present and appends one that is absent, and keeps every other entry |
| PromptSidebar.ToggledTwice | pages/prompts/components/PromptSidebar.tsx:101-104 | toggling an absent entry twice restores the list exactly |
| PromptSidebar.Flip | pages/prompts/components/PromptSidebar.tsx:77 | the AND/OR switch always changes the mode |
| PromptSidebar.VersionsOf | pages/prompts/components/PromptSidebar.tsx:109 | the versions of the first brand with that id, and none for no brand or an unknown one |
| PromptSidebar.Sidebar.AvailableVersions | pages/prompts/components/PromptSidebar.tsx:109 | the selected brand's own versions, and none when no brand or an unlisted brand is selected |
| PromptSidebar.BrandsOfferOwnVersions | pages/prompts/components/PromptSidebar.tsx:16-20 | every brand of the catalogue offers exactly its own versions, in order |
| PromptSidebar.Sidebar.constructor | pages/prompts/components/PromptSidebar.tsx:37-42 | the sidebar starts with no filter, AND logic and nothing sent |
| PromptSidebar.Sidebar.HandleSearch | pages/prompts/components/PromptSidebar.tsx:61-64 | the query is set and reported |
| PromptSidebar.Sidebar.ResetAll | pages/prompts/components/PromptSidebar.tsx:66-74 | everything but the logic is cleared, the empty query is reported and one notification with no filter and the kept logic is sent |
| PromptSidebar.Sidebar.ToggleLogic | pages/prompts/components/PromptSidebar.tsx:76-80 | the logic flips and the notification describes the new state |
| PromptSidebar.Sidebar.ToggleCategory | pages/prompts/components/PromptSidebar.tsx:82-88 | the category toggles and the notification describes the new state |
| PromptSidebar.Sidebar.ToggleTag | pages/prompts/components/PromptSidebar.tsx:101-107 | the tag toggles and the notification describes the new state |
| PromptSidebar.Sidebar.HandleBrandSelect | pages/prompts/components/PromptSidebar.tsx:90-94 | corrected: the brand is set, the version cleared, and the notification describes the new state, with no version |
| PromptSidebar.Sidebar.HandleVersionSelect | pages/prompts/components/PromptSidebar.tsx:96-99 | corrected: the version is set and the notification describes the new state |
| AiVoiceInput.VoiceInput.constructor | components/AIVoiceInput.tsx:26-29 | the widget starts unsubmitted at 0 seconds, in the given demo mode |
| AiVoiceInput.VoiceInput.SubmittedEffect | components/AIVoiceInput.tsx:35-51 | becoming submitted reports the start once; becoming unsubmitted reports the stop with the elapsed seconds only when they are positive, then resets them to 0 |
| AiVoiceInput.VoiceInput.SetSubmitted | components/AIVoiceInput.tsx:35-51 | the effect runs only when `submitted` changes; every reported stop follows a start and carries a positive duration |
| AiVoiceInput.VoiceInput.HandleClick | components/AIVoiceInput.tsx:78-85 | in demo mode a click leaves demo and forces `submitted` off; otherwise it toggles `submitted` |
| AiVoiceInput.VoiceInput.Tick | components/AIVoiceInput.tsx:40-42 | a second is counted while submitted |
| AiVoiceInput.VoiceInput.DemoStep | components/AIVoiceInput.tsx:53-70 | a timeout of the demo loop sets `submitted` while demo mode lasts, and the effect reports as on a click: the start when it turns on, the stop with the elapsed seconds when they are positive and it turns off, nothing when unchanged |
| DynamicVoiceButton.ClickCallbacks | components/DynamicVoiceButton.tsx:48-54 | a click calls exactly one callback: stop when recording, start otherwise |
| DynamicVoiceButton.Button.constructor | components/DynamicVoiceButton.tsx:26-40 | the button starts at 0 seconds |
| DynamicVoiceButton.Button.RecordingChanged | components/DynamicVoiceButton.tsx:28-40 | leaving the recording state resets the counter to 0, and the counter is 0 whenever the button is not recording |
| DynamicVoiceButton.Button.Tick | components/DynamicVoiceButton.tsx:32-34 | a second is counted while recording |

## Left out

- Rendering, CSS classes, animations, the typewriter and shimmer effects, scrolling and the back-to-top button are presentation only.
- The navigation bar, the player bar, the voice sidebar, the prompt discovery page and the digital-human page are not part of this model. Neither are the slider styling and the option menus of the prompt sidebar.
- The voice, speaker, player, TTS and language contexts are not part of this model. The speaker registry is a map whose `registerSpeaker` stores by id and overwrites. The other contexts are request logs. Updating or deleting a voice, and falling back from a deleted selected voice, happen inside the voice context and are not modelled.
- `transcribeAudio`, `analyzeConversation` and `file.arrayBuffer` are calls into code that cannot be seen here. Their outcome is a parameter. The base64 encoding of the file is left out.
- Timers are not scheduled. Each interval tick and timeout completion is a method the caller invokes, and a tick requires its interval to be live. Unmount cleanups are left out.
- `Math.random()`, `Date.now()`, `toLocaleTimeString()` and `confirm()` are parameters. One clock value is used for all segments of one analysis.
- The cloning screen's random reading text and `RANDOM_READING_TEXTS` are left out. So are the category translation table and the example data seeded into the contexts.
- Text.ToLower: does not model Unicode case mapping, because `toLowerCase` is modelled on ASCII letters only.
- Tts.Snippet: counts characters, not UTF-16 code units, so `slice(0, 150)` on text outside the basic multilingual plane is not modelled exactly.
- Tts.TtsScreen.CompleteGenerate: the catch branch, which shows an error, cannot fire, because nothing in the try block throws. It is not modelled.
- Tts.ResultIdsDistinct: two syntheses in the same millisecond get the same id, and then deleting one entry deletes both. The lemma covers distinct milliseconds only.
- The TTS screen keeps its own picker state (`showVoiceModal`, `modalTab`, `modalSearch`), but it never renders the picker and never changes the tab or the search. Its copy of the picker filter (TTS.tsx:96-102) is therefore dead code and is not modelled as part of the TTS screen. The live picker is the home screen's, and VoiceCatalog.FilteredModalVoices models that filter.
- App.Shell.SetModule: the module effect also depends on `closePlayer` (App.tsx:43). The model reruns it only when the module changes, which assumes the player context hands out the same `closePlayer` on every render. That context is not part of this model.
- Diarization.FormatSegmentTime: takes non-negative times only, because segment times are never negative. Optional segment times are modelled as present reals.
- Diarization.StreamSegment: times and confidences are exact reals, not IEEE doubles, and the same holds for Diarization.Minutes and Diarization.Seconds. In doubles `0.98 + Math.random() * 0.02` can round up to 1.0, so the bound `confidence < 1.0` holds in the model but not always in the source.
- Diarization.DiarizationScreen.FinishAnalysis: a malformed result item throws in the middle of the `map` at Diarization.tsx:126-137, after the earlier items have called `registerSpeaker`. The model treats a failure as one `Err` outcome that leaves the registry unchanged, so those partial registrations are not modelled.
- Types: optional booleans of `Voice` (`isCustom`, `isFavorite`, `isPublic`) are modelled as plain booleans, with absent read as false. The other records of types.ts are not used by the modelled screens.
- The ASR screen's reset of the file input after an upload only affects the DOM. It is not modelled.
- AiVoiceInput.VoiceInput.DemoStep: the alternation of the demo loop (on, then off after the interval, then on again a second later) is left to the caller. The step only requires demo mode.

## Findings

| source | as written | input that shows it | evidently intended | confidence | as-written member | corrected member |
|---|---|---|---|---|---|---|
| pages/voice/Diarization.tsx:82-96 | the stream's interval closure tests each line's speaker against the registry captured when recording started, so a speaker seen earlier in the same stream is registered again | recording from an empty registry, then renaming `spk_known_1` after the first tick: the fourth tick registers it again with a new colour, and the rename is lost | register a speaker only the first time the stream meets it, and keep the identity already in the registry | medium, not executed; it rests on `registerSpeaker` overwriting by id | Diarization.StaleStreamOverwritesRename | Diarization.DiarizationScreen.StreamTick |
| pages/voice/Diarization.tsx:126-137 | the analysis `map` callback tests each label against the registry captured before the call, so a label that occurs twice is registered twice | two utterances labelled "Alice" in one result: two registrations under `spk_alice`, indigo then rose | register each new label once, keeping its first colour | medium, not executed; it rests on `registerSpeaker` overwriting by id | Diarization.StaleAnalysisRegistersTwice | Diarization.DiarizationScreen.FinishAnalysis |
| pages/prompts/components/PromptSidebar.tsx:90-94 | `notifyChange` treats an undefined override as absent and falls back to the render's state, and brand selection passes undefined to mean "no version" and "all models" | state GEMINI / GEMINI3: choosing GPT reports version GEMINI3; choosing "all models" reports GEMINI | the page hears the state the sidebar now shows: the new brand with no version, or no brand | high, not executed | PromptSidebar.StaleBrandReported | PromptSidebar.Sidebar.HandleBrandSelect |
| pages/prompts/components/PromptSidebar.tsx:96-99 | `notifyChange` falls back to the render's version when the override is undefined, and version selection passes undefined to mean "all versions" | state GEMINI / GEMINI3: choosing "all versions" reports GEMINI3 | the page hears no version | high, not executed | PromptSidebar.StaleVersionReported | PromptSidebar.Sidebar.HandleVersionSelect |
