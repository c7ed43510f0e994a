/**
 * The application shell: the page shown first, the module-change effect that closes the player
 * and resets the page, the page-to-screen switch of the voice module, and the module areas.
 */
module App {
  import opened Wrappers
  import opened Types

  /** The initial `currentPage` of a module. */
  function InitialPage(m: AppModule): (r: Page)
    ensures r == PromptDiscover <==> m == PromptLibrary
    ensures r != PromptDiscover ==> r == Home
  {
    if m == PromptLibrary then PromptDiscover else Home
  }

  /** The page the module-change effect sets, if any: the two modules with pages have a landing page. */
  function LandingPage(m: AppModule): (r: Option<Page>)
    ensures r.Some? <==> (m == AiVoice || m == PromptLibrary)
    ensures r.Some? ==> r.value == InitialPage(m)
  {
    if m == AiVoice then Some(Home) else if m == PromptLibrary then Some(PromptDiscover) else None
  }

  /** The screens of the voice module. */
  datatype Screen =
    | HomeScreen
    | AsrScreen
    | TtsScreen
    | CloningScreen
    | DiarizationScreen
    | LibraryScreen(initialTab: Page)

  /** `renderSubPage`. */
  function RenderSubPage(page: Page): (r: Screen)
    ensures r.LibraryScreen? <==> (page == Preset || page == Custom)
    ensures r.LibraryScreen? ==> r.initialTab == page
    ensures r == AsrScreen <==> page == Asr
    ensures r == TtsScreen <==> page == Tts
    ensures r == CloningScreen <==> page == VoiceCloning
    ensures r == DiarizationScreen <==> page == Voiceprint
    ensures r == HomeScreen <==> page !in {Preset, Custom, Asr, Tts, VoiceCloning, Voiceprint}
  {
    match page
    case Home => HomeScreen
    case Asr => AsrScreen
    case Tts => TtsScreen
    case VoiceCloning => CloningScreen
    case Voiceprint => DiarizationScreen
    case Preset => LibraryScreen(page)
    case Custom => LibraryScreen(page)
    case _ => HomeScreen
  }

  datatype Area = VoiceArea | PromptArea | DigitalHumanArea

  /** The module areas rendered for a module: at most one, and none for the digital-human sub-modules. */
  function RenderedAreas(m: AppModule): (r: set<Area>)
    ensures |r| <= 1
    ensures r == {} <==> m in {DhAudio, DhChat, DhAvatar, Dh3d}
    ensures VoiceArea in r <==> m == AiVoice
    ensures PromptArea in r <==> m == PromptLibrary
    ensures DigitalHumanArea in r <==> m == DigitalHuman
  {
    (if m == AiVoice then {VoiceArea} else {}) +
    (if m == PromptLibrary then {PromptArea} else {}) +
    (if m == DigitalHuman then {DigitalHumanArea} else {})
  }

  class Shell {
    var current: AppModule
    var page: Page
    /** How many times `closePlayer` has been called. */
    var playerCloses: nat

    /** After the module effect has run, the page of a module with pages is its landing page or one navigated to. */
    constructor (m: AppModule)
      ensures current == m && page == InitialPage(m) && playerCloses == 1
    {
      current, page, playerCloses := m, InitialPage(m), 0;
      new;
      RunModuleEffect();
    }

    /** The body of the module-change effect. */
    method RunModuleEffect()
      modifies this`page, this`playerCloses
      ensures playerCloses == old(playerCloses) + 1
      ensures page == match LandingPage(current) case Some(p) => p case None => old(page)
    {
      playerCloses := playerCloses + 1;
      if current == AiVoice {
        page := Home;
      } else if current == PromptLibrary {
        page := PromptDiscover;
      }
    }

    /** Switching module: the effect runs only when the module actually changes. */
    method SetModule(m: AppModule)
      modifies this`current, this`page, this`playerCloses
      ensures current == m
      ensures m == old(current) ==> page == old(page) && playerCloses == old(playerCloses)
      ensures m != old(current) ==> (playerCloses == old(playerCloses) + 1 &&
        page == match LandingPage(m) case Some(p) => p case None => old(page))
    {
      if m == current {
        return;
      }
      current := m;
      RunModuleEffect();
    }

    /** `onNavigate` / `setCurrentPage` from the sidebar or a screen. */
    method Navigate(p: Page)
      modifies this`page
      ensures page == p
    {
      page := p;
    }
  }
}
