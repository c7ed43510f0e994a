/**
 * The filter sidebar of the prompt library: search text, category and tag toggles, the AND/OR
 * switch, the model brand and version choice, the reset, and the filter notifications it sends
 * to the page.
 */
module PromptSidebar {
  import opened Wrappers
  import opened Seqs

  datatype Logic = And | Or

  /** A model brand and its versions. */
  datatype Model = Model(id: string, versions: seq<string>)

  const MODEL_DATA: seq<Model> := [
    Model("GEMINI", ["GEMINI3", "GEMINI2.5", "GEMINI FLASH"]),
    Model("GPT", ["GPT-4o", "GPT-4", "O1"]),
    Model("CLAUDE", ["CLAUDE 3.5", "CLAUDE 3"])
  ]

  /** The sidebar's filter state; `None` is the null of "all models" or "all versions". */
  datatype Filters = Filters(
    categories: seq<string>,
    brand: Option<string>,
    version: Option<string>,
    tags: seq<string>,
    logic: Logic)

  /** The filter the page is told about; `None` is an undefined brand or version. */
  datatype FilterChange = FilterChange(
    categories: seq<string>,
    brand: Option<string>,
    version: Option<string>,
    tags: seq<string>,
    logic: Logic)

  /** The fields a handler passes to `notifyChange`; `None` is an absent or undefined field. */
  datatype Overrides = Overrides(
    categories: Option<seq<string>>,
    brand: Option<string>,
    version: Option<string>,
    tags: Option<seq<string>>,
    logic: Option<Logic>)

  const NO_OVERRIDES: Overrides := Overrides(None, None, None, None, None)

  /** `x || undefined` on a nullable string: null and the empty string become undefined. */
  function OrUndefined(x: Option<string>): (r: Option<string>)
    ensures r.Some? <==> (x.Some? && x.value != "")
    ensures r.Some? ==> r == x
  {
    if x.Some? && x.value != "" then x else None
  }

  /** What the page should be told for a filter state. */
  function Report(f: Filters): (r: FilterChange)
    ensures r.categories == f.categories && r.tags == f.tags && r.logic == f.logic
    ensures r.brand == OrUndefined(f.brand) && r.version == OrUndefined(f.version)
  {
    FilterChange(f.categories, OrUndefined(f.brand), OrUndefined(f.version), f.tags, f.logic)
  }

  /** `notifyChange(overrides)` AS WRITTEN: each field from the override when defined, else from the render's state. */
  function MergeOverrides(current: Filters, o: Overrides): (r: FilterChange)
    ensures r.categories == if o.categories.Some? then o.categories.value else current.categories
    ensures r.brand == if o.brand.Some? then o.brand else OrUndefined(current.brand)
    ensures r.version == if o.version.Some? then o.version else OrUndefined(current.version)
    ensures r.tags == if o.tags.Some? then o.tags.value else current.tags
    ensures r.logic == if o.logic.Some? then o.logic.value else current.logic
  {
    FilterChange(
      if o.categories.Some? then o.categories.value else current.categories,
      if o.brand.Some? then o.brand else OrUndefined(current.brand),
      if o.version.Some? then o.version else OrUndefined(current.version),
      if o.tags.Some? then o.tags.value else current.tags,
      if o.logic.Some? then o.logic.value else current.logic)
  }

  /**
   * The notification of `handleBrandSelect(brand)` as written: a chosen brand is reported, but
   * "all models" reports the brand of the render, and the version is always the render's.
   */
  function BrandSelectNotice(current: Filters, brand: Option<string>): (r: FilterChange)
    ensures OrUndefined(brand).Some? ==> r.brand == brand
    ensures OrUndefined(brand).None? ==> r.brand == OrUndefined(current.brand)
    ensures r.version == OrUndefined(current.version)
    ensures r.categories == current.categories && r.tags == current.tags && r.logic == current.logic
  {
    MergeOverrides(current, NO_OVERRIDES.(brand := OrUndefined(brand)))
  }

  /**
   * The notification of `handleVersionSelect(version)` as written: a chosen version is reported,
   * but "all versions" reports the version of the render.
   */
  function VersionSelectNotice(current: Filters, version: Option<string>): (r: FilterChange)
    ensures OrUndefined(version).Some? ==> r.version == version
    ensures OrUndefined(version).None? ==> r.version == OrUndefined(current.version)
    ensures r.brand == OrUndefined(current.brand)
    ensures r.categories == current.categories && r.tags == current.tags && r.logic == current.logic
  {
    MergeOverrides(current, NO_OVERRIDES.(version := OrUndefined(version)))
  }

  /**
   * As written, switching brand after choosing a version reports the old version with the new
   * brand, and choosing "all models" reports the previous brand, although the sidebar then shows
   * the new brand with no version, or no brand.
   */
  lemma StaleBrandReported(f: Filters, brand: Option<string>)
    requires OrUndefined(f.version).Some?
    ensures BrandSelectNotice(f, brand) != Report(f.(brand := brand, version := None))
  {
  }

  /**
   * As written, choosing "all versions" after a version reports that version, although the
   * sidebar then shows no version.
   */
  lemma StaleVersionReported(f: Filters, version: Option<string>)
    requires OrUndefined(f.version).Some? && OrUndefined(version).None?
    ensures VersionSelectNotice(f, version) != Report(f.(version := version))
  {
  }

  /** `includes(x) ? filter(c => c !== x) : [...list, x]`. */
  function Toggled(xs: seq<string>, x: string): (r: seq<string>)
    ensures x in r <==> x !in xs
    ensures x !in xs ==> r == xs + [x]
    ensures forall i :: 0 <= i < |xs| && xs[i] != x ==> xs[i] in r
    ensures forall i :: 0 <= i < |r| ==> r[i] == x || r[i] in xs
  {
    if x in xs then Filter(xs, (c: string) => c != x) else xs + [x]
  }

  /** Toggling the same entry twice, starting without it, restores the list exactly. */
  lemma {:induction false} ToggledTwice(xs: seq<string>, x: string)
    requires x !in xs
    ensures Toggled(Toggled(xs, x), x) == xs
  {
    var keep := (c: string) => c != x;
    FilterAppend(xs, [x], keep);
    FilterKeepsAll(xs, keep);
    assert Filter([x], keep) == [] by {
      assert Filter([x][1..], keep) == [];
    }
  }

  function Flip(l: Logic): (r: Logic)
    ensures r != l
  {
    if l == And then Or else And
  }

  /** The versions of the first brand with the given id, or none when no brand matches. */
  function VersionsOf(data: seq<Model>, brand: Option<string>): (r: seq<string>)
    ensures brand.None? ==> r == []
    ensures (forall i :: 0 <= i < |data| ==> brand != Some(data[i].id)) ==> r == []
    ensures forall i :: (0 <= i < |data| && brand == Some(data[i].id) &&
      (forall j :: 0 <= j < i ==> brand != Some(data[j].id))) ==> r == data[i].versions
  {
    if data == [] then []
    else if brand == Some(data[0].id) then data[0].versions
    else
      var rest := VersionsOf(data[1..], brand);
      assert forall i :: 1 <= i < |data| ==> data[i] == data[1..][i - 1];
      rest
  }

  /** Each brand of the catalogue offers its own versions, in order, since no two brands share an id. */
  lemma BrandsOfferOwnVersions()
    ensures forall i :: 0 <= i < |MODEL_DATA| ==> VersionsOf(MODEL_DATA, Some(MODEL_DATA[i].id)) == MODEL_DATA[i].versions
  {
    assert forall i, j :: 0 <= j < i < |MODEL_DATA| ==> MODEL_DATA[i].id != MODEL_DATA[j].id;
  }

  class Sidebar {
    var query: string
    var categories: seq<string>
    var brand: Option<string>
    var version: Option<string>
    var tags: seq<string>
    var logic: Logic
    /** The calls made on `onFilterChange`, and on `onSearch`, in order. */
    var notified: seq<FilterChange>
    var searches: seq<string>

    function Current(): Filters
      reads this
    {
      Filters(categories, brand, version, tags, logic)
    }

    /** The last notification describes the current filter state. */
    ghost predicate Valid()
      reads this
    {
      notified != [] ==> notified[|notified| - 1] == Report(Current())
    }

    constructor ()
      ensures Valid()
      ensures query == "" && categories == [] && brand == None && version == None && tags == []
      ensures logic == And && notified == [] && searches == []
    {
      query, categories, brand, version, tags, logic := "", [], None, None, [], And;
      notified, searches := [], [];
    }

    /** `availableVersions`. */
    function AvailableVersions(): (r: seq<string>)
      reads this
      ensures brand.None? ==> r == []
      ensures forall i :: 0 <= i < |MODEL_DATA| && brand == Some(MODEL_DATA[i].id) ==> r == MODEL_DATA[i].versions
      ensures (forall i :: 0 <= i < |MODEL_DATA| ==> brand != Some(MODEL_DATA[i].id)) ==> r == []
    {
      BrandsOfferOwnVersions();
      VersionsOf(MODEL_DATA, brand)
    }

    method HandleSearch(q: string)
      modifies this`query, this`searches
      ensures query == q && searches == old(searches) + [q]
    {
      query := q;
      searches := searches + [q];
    }

    /** `resetAll`: everything but the AND/OR mode is cleared, and both callbacks are told. */
    method ResetAll()
      requires Valid()
      modifies this`query, this`categories, this`brand, this`version, this`tags, this`searches, this`notified
      ensures Valid()
      ensures query == "" && categories == [] && brand == None && version == None && tags == []
      ensures logic == old(logic) && searches == old(searches) + [""]
      ensures notified == old(notified) + [FilterChange([], None, None, [], logic)]
    {
      query, categories, brand, version, tags := "", [], None, None, [];
      searches := searches + [""];
      notified := notified + [MergeOverrides(Current(), NO_OVERRIDES.(categories := Some([]), tags := Some([]), logic := Some(logic)))];
    }

    method ToggleLogic()
      requires Valid()
      modifies this`logic, this`notified
      ensures Valid()
      ensures logic == Flip(old(logic))
      ensures notified == old(notified) + [Report(Current())]
    {
      var old_ := Current();
      logic := Flip(logic);
      notified := notified + [MergeOverrides(old_, NO_OVERRIDES.(logic := Some(logic)))];
    }

    method ToggleCategory(id: string)
      requires Valid()
      modifies this`categories, this`notified
      ensures Valid()
      ensures categories == Toggled(old(categories), id)
      ensures notified == old(notified) + [Report(Current())]
    {
      var old_ := Current();
      categories := Toggled(categories, id);
      notified := notified + [MergeOverrides(old_, NO_OVERRIDES.(categories := Some(categories)))];
    }

    method ToggleTag(tag: string)
      requires Valid()
      modifies this`tags, this`notified
      ensures Valid()
      ensures tags == Toggled(old(tags), tag)
      ensures notified == old(notified) + [Report(Current())]
    {
      var old_ := Current();
      tags := Toggled(tags, tag);
      notified := notified + [MergeOverrides(old_, NO_OVERRIDES.(tags := Some(tags)))];
    }

    /**
     * `handleBrandSelect`: the brand is set and the version cleared. The page is told the new
     * state, not the merge with the render's state (see `BrandSelectNotice`).
     */
    method HandleBrandSelect(b: Option<string>)
      requires Valid()
      modifies this`brand, this`version, this`notified
      ensures Valid()
      ensures brand == b && version == None
      ensures notified == old(notified) + [Report(Current())]
      ensures notified[|notified| - 1].version == None
    {
      brand, version := b, None;
      notified := notified + [Report(Current())];
    }

    /** `handleVersionSelect`: the version is set and the page is told the new state. */
    method HandleVersionSelect(v: Option<string>)
      requires Valid()
      modifies this`version, this`notified
      ensures Valid()
      ensures version == v
      ensures notified == old(notified) + [Report(Current())]
    {
      version := v;
      notified := notified + [Report(Current())];
    }
  }
}
