/**
 * The voice library screen: the tab, gender, category and name filters over the shared voice
 * list, the filter toggles and their reset, and the editing and deletion of custom voices.
 */
module VoiceLibrary {
  import opened Wrappers
  import opened Seqs
  import opened Text
  import opened Types
  import opened VoiceCatalog

  /** The custom tab keeps custom voices; the preset tab and every other page keep preset voices. */
  predicate TabMatches(v: Voice, tab: Page)
  {
    if tab == Custom then IsCustomVoice(v) else IsPresetVoice(v)
  }

  predicate GenderMatches(v: Voice, gender: Option<Gender>)
  {
    gender.None? || v.gender == gender.value
  }

  predicate CategoryMatches(v: Voice, category: Option<Category>)
  {
    category.None? || v.category == category.value
  }

  /** The single condition a voice meets to be listed. */
  predicate LibraryMatches(v: Voice, tab: Page, gender: Option<Gender>, category: Option<Category>, query: string)
  {
    TabMatches(v, tab) && GenderMatches(v, gender) && CategoryMatches(v, category) && NameMatches(v, query)
  }

  /**
   * `getFilteredVoices`: the tab filter, then the gender, category and search filters, each
   * applied only when it is set.
   */
  function FilteredVoices(voices: seq<Voice>, tab: Page, gender: Option<Gender>, category: Option<Category>,
                          query: string): (r: seq<Voice>)
    ensures |r| <= |voices|
  {
    var byTab := Filter(voices, (v: Voice) => TabMatches(v, tab));
    var byGender := if gender.Some? then Filter(byTab, (v: Voice) => v.gender == gender.value) else byTab;
    var byCategory := if category.Some? then Filter(byGender, (v: Voice) => v.category == category.value) else byGender;
    if query != "" then Filter(byCategory, (v: Voice) => NameMatches(v, query)) else byCategory
  }

  /** An optional filter step is a filter by a condition that holds everywhere when the step is off. */
  lemma OptionalStep(s: seq<Voice>, on: bool, p: Voice -> bool, q: Voice -> bool)
    requires forall i :: 0 <= i < |s| ==> q(s[i]) == (!on || p(s[i]))
    ensures (if on then Filter(s, p) else s) == Filter(s, q)
  {
    if on {
      FilterCongruent(s, p, q);
    } else {
      FilterKeepsAll(s, q);
    }
  }

  /** Filtering the result of a filter by `q` is filtering once by any `next` that means both. */
  lemma FilterThen(s: seq<Voice>, first: Voice -> bool, q: Voice -> bool, next: Voice -> bool)
    requires forall v :: next(v) == (first(v) && q(v))
    ensures Filter(Filter(s, first), q) == Filter(s, next)
  {
    FilterFilter(s, first, q);
    FilterCongruent(s, (v: Voice) => first(v) && q(v), next);
  }

  /** The tab and gender steps together. */
  lemma GenderStage(voices: seq<Voice>, tab: Page, gender: Option<Gender>)
    ensures var byTab := Filter(voices, (v: Voice) => TabMatches(v, tab));
      (if gender.Some? then Filter(byTab, (v: Voice) => v.gender == gender.value) else byTab) ==
      Filter(voices, (v: Voice) => TabMatches(v, tab) && GenderMatches(v, gender))
  {
    var byTab := Filter(voices, (v: Voice) => TabMatches(v, tab));
    if gender.Some? {
      OptionalStep(byTab, true, (v: Voice) => v.gender == gender.value, (v: Voice) => GenderMatches(v, gender));
    } else {
      OptionalStep(byTab, false, (v: Voice) => true, (v: Voice) => GenderMatches(v, gender));
    }
    FilterThen(voices, (v: Voice) => TabMatches(v, tab), (v: Voice) => GenderMatches(v, gender),
      (v: Voice) => TabMatches(v, tab) && GenderMatches(v, gender));
  }

  /** The tab, gender and category steps together. */
  lemma CategoryStage(voices: seq<Voice>, tab: Page, gender: Option<Gender>, category: Option<Category>)
    ensures var byGender := Filter(voices, (v: Voice) => TabMatches(v, tab) && GenderMatches(v, gender));
      (if category.Some? then Filter(byGender, (v: Voice) => v.category == category.value) else byGender) ==
      Filter(voices, (v: Voice) => TabMatches(v, tab) && GenderMatches(v, gender) && CategoryMatches(v, category))
  {
    var byGender := Filter(voices, (v: Voice) => TabMatches(v, tab) && GenderMatches(v, gender));
    if category.Some? {
      OptionalStep(byGender, true, (v: Voice) => v.category == category.value,
        (v: Voice) => CategoryMatches(v, category));
    } else {
      OptionalStep(byGender, false, (v: Voice) => true, (v: Voice) => CategoryMatches(v, category));
    }
    FilterThen(voices, (v: Voice) => TabMatches(v, tab) && GenderMatches(v, gender),
      (v: Voice) => CategoryMatches(v, category),
      (v: Voice) => TabMatches(v, tab) && GenderMatches(v, gender) && CategoryMatches(v, category));
  }

  /** All four steps together. */
  lemma SearchStage(voices: seq<Voice>, tab: Page, gender: Option<Gender>, category: Option<Category>, query: string)
    ensures var byCategory := Filter(voices,
        (v: Voice) => TabMatches(v, tab) && GenderMatches(v, gender) && CategoryMatches(v, category));
      (if query != "" then Filter(byCategory, (v: Voice) => NameMatches(v, query)) else byCategory) ==
      Filter(voices, (v: Voice) => LibraryMatches(v, tab, gender, category, query))
  {
    var first := (v: Voice) => TabMatches(v, tab) && GenderMatches(v, gender) && CategoryMatches(v, category);
    var byCategory := Filter(voices, first);
    forall i | 0 <= i < |byCategory| ensures NameMatches(byCategory[i], query) == (!(query != "") || NameMatches(byCategory[i], query)) {
      if query == "" {
        ContainsEmpty(ToLower(byCategory[i].name));
      }
    }
    OptionalStep(byCategory, query != "", (v: Voice) => NameMatches(v, query), (v: Voice) => NameMatches(v, query));
    FilterThen(voices, first, (v: Voice) => NameMatches(v, query),
      (v: Voice) => LibraryMatches(v, tab, gender, category, query));
  }

  /**
   * The chain of filters is one filter by `LibraryMatches`: a voice is listed exactly when it
   * meets every set filter, and the list keeps the order of `voices`.
   */
  lemma FilteredVoicesIsOneFilter(voices: seq<Voice>, tab: Page, gender: Option<Gender>, category: Option<Category>,
                                  query: string)
    ensures FilteredVoices(voices, tab, gender, category, query) ==
      Filter(voices, (v: Voice) => LibraryMatches(v, tab, gender, category, query))
  {
    GenderStage(voices, tab, gender);
    CategoryStage(voices, tab, gender, category);
    SearchStage(voices, tab, gender, category, query);
  }

  /** Listed voices meet every set filter, every voice that does is listed, and order is kept. */
  lemma FilteredVoicesSpec(voices: seq<Voice>, tab: Page, gender: Option<Gender>, category: Option<Category>,
                           query: string)
    ensures var r := FilteredVoices(voices, tab, gender, category, query);
      (forall i :: 0 <= i < |r| ==> r[i] in voices && LibraryMatches(r[i], tab, gender, category, query)) &&
      (forall i :: 0 <= i < |voices| && LibraryMatches(voices[i], tab, gender, category, query) ==> voices[i] in r) &&
      IsSubsequence(r, voices)
  {
    FilteredVoicesIsOneFilter(voices, tab, gender, category, query);
  }

  /** With the filters cleared, a tab lists exactly the voices of its kind. */
  lemma ClearedFiltersListTab(voices: seq<Voice>, tab: Page)
    ensures FilteredVoices(voices, tab, None, None, "") ==
      Filter(voices, if tab == Custom then IsCustomVoice else IsPresetVoice)
  {
    FilteredVoicesIsOneFilter(voices, tab, None, None, "");
    forall i | 0 <= i < |voices|
      ensures LibraryMatches(voices[i], tab, None, None, "") ==
        (if tab == Custom then IsCustomVoice else IsPresetVoice)(voices[i])
    {
      ContainsEmpty(ToLower(voices[i].name));
    }
    FilterCongruent(voices, (v: Voice) => LibraryMatches(v, tab, None, None, ""),
      if tab == Custom then IsCustomVoice else IsPresetVoice);
  }

  /** A filter button: clicking the active choice clears it, clicking another selects it. */
  function Toggle<T(==)>(current: Option<T>, clicked: T): (r: Option<T>)
    ensures r == None <==> current == Some(clicked)
    ensures r != None ==> r == Some(clicked)
  {
    if current == Some(clicked) then None else Some(clicked)
  }

  /** Clicking the same button twice restores a cleared filter or that same choice. */
  lemma ToggleTwice<T>(current: Option<T>, clicked: T)
    ensures Toggle(Toggle(current, clicked), clicked) ==
      if current == None || current == Some(clicked) then current else None
  {
  }

  /** `saveEdit`'s tag parsing: split on the separator class and drop the blank pieces. */
  function ParseTags(s: string): (r: seq<string>)
    ensures forall i :: 0 <= i < |r| ==> !IsBlank(r[i]) && SepFree(r[i], IsTagSep)
    ensures IsSubsequence(r, Split(s, IsTagSep))
    ensures forall k :: 0 <= k < |Split(s, IsTagSep)| && !IsBlank(Split(s, IsTagSep)[k]) ==> Split(s, IsTagSep)[k] in r
  {
    var r := Filter(Split(s, IsTagSep), (t: string) => !IsBlank(t));
    assert forall i :: 0 <= i < |r| ==> r[i] in Split(s, IsTagSep);
    r
  }

  /** Editing shows the tags joined by ", "; saving without changes gives back the same tags. */
  lemma EditTagsRoundTrip(tags: seq<string>)
    requires forall k :: 0 <= k < |tags| ==> !IsBlank(tags[k]) && SepFree(tags[k], IsTagSep)
    ensures ParseTags(Join(tags, ", ")) == tags
  {
    TagsRoundTrip(tags, (t: string) => !IsBlank(t));
  }

  class LibraryScreen {
    var activeTab: Page
    var gender: Option<Gender>
    var category: Option<Category>
    var query: string
    var editingId: Option<string>
    var editName: string
    var editTags: string
    var requests: seq<VoiceRequest>

    constructor (initialTab: Page)
      ensures activeTab == initialTab && gender == None && category == None && query == ""
      ensures editingId == None && requests == []
    {
      activeTab, gender, category, query := initialTab, None, None, "";
      editingId, editName, editTags, requests := None, "", "", [];
    }

    /** The `initialTab` effect: a new tab from the shell becomes the active tab. */
    method InitialTabChanged(tab: Page)
      modifies this`activeTab
      ensures activeTab == tab
    {
      activeTab := tab;
    }

    /** The voices the grid shows. */
    function Listed(voices: seq<Voice>): (r: seq<Voice>)
      reads this
    {
      FilteredVoices(voices, activeTab, gender, category, query)
    }

    /** `clearFilters`. */
    method ClearFilters(voices: seq<Voice>)
      modifies this`gender, this`category, this`query
      ensures gender == None && category == None && query == ""
      ensures Listed(voices) == Filter(voices, if activeTab == Custom then IsCustomVoice else IsPresetVoice)
    {
      gender, category, query := None, None, "";
      ClearedFiltersListTab(voices, activeTab);
    }

    method ToggleGender(g: Gender)
      modifies this`gender
      ensures gender == Toggle(old(gender), g)
    {
      gender := Toggle(gender, g);
    }

    method ToggleCategory(c: Category)
      modifies this`category
      ensures category == Toggle(old(category), c)
    {
      category := Toggle(category, c);
    }

    /** `startEditing`: loads the voice's id, its name and its tags joined by ", ". */
    method StartEditing(v: Voice)
      modifies this`editingId, this`editName, this`editTags
      ensures editingId == Some(v.id) && editName == v.name && editTags == Join(v.tags, ", ")
    {
      editingId, editName, editTags := Some(v.id), v.name, Join(v.tags, ", ");
    }

    /** `saveEdit(id)`: the name and the parsed tags are sent to the registry and editing ends. */
    method SaveEdit(id: string)
      modifies this`requests, this`editingId
      ensures requests == old(requests) + [UpdateVoice(id, editName, ParseTags(editTags))]
      ensures editingId == None
    {
      requests := requests + [UpdateVoice(id, editName, ParseTags(editTags))];
      editingId := None;
    }

    /** `handleDelete` with the answer to the confirmation dialogue: the voice is deleted only when confirmed. */
    method HandleDelete(id: string, confirmed: bool)
      modifies this`requests
      ensures requests == if confirmed then old(requests) + [DeleteVoice(id)] else old(requests)
    {
      if confirmed {
        requests := requests + [DeleteVoice(id)];
      }
    }
  }
}
