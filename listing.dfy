/** The `data-list` element of src/js/components/DataList.js: the canton index
    built from the ZIP-to-canton mapping, the canton and profession filters,
    the current page, and what one render shows. */
module Listing {
  import opened JsCore
  import opened Sequences
  import opened Postings
  import opened Pager

  /** The professions offered in the profession drop-down. */
  const Professions: seq<string> := [
    "Metallbauer/-in (Metallbau) EFZ",
    "Metallbaukonstrukteur/-in EFZ",
    "Metallbaupraktiker/-in EBA"
  ]

  // ---------------------------------------------------------------------
  // Canton index

  /** canton -> the set of ZIP codes that the mapping assigns to it. */
  function CantonIndex(zipToCanton: map<string, string>): (index: map<string, set<string>>)
    ensures index.Keys == zipToCanton.Values
    ensures forall zip :: zip in zipToCanton ==> zipToCanton[zip] in index && zip in index[zipToCanton[zip]]
    ensures forall canton, zip :: canton in index && zip in index[canton] ==> zip in zipToCanton && zipToCanton[zip] == canton
  {
    map canton | canton in zipToCanton.Values :: set zip | zip in zipToCanton && zipToCanton[zip] == canton
  }

  /** Adding a new ZIP code adds its canton to the cantons of the mapping. */
  lemma ValuesInsert(m: map<string, string>, zip: string, canton: string)
    requires zip !in m
    ensures m[zip := canton].Values == m.Values + {canton}
  {
    var m' := m[zip := canton];
    forall v | v in m'.Values
      ensures v in m.Values + {canton}
    {
      var k :| k in m' && m'[k] == v;
      if k != zip {
        assert m[k] == v;
      }
    }
    forall v | v in m.Values
      ensures v in m'.Values
    {
      var k :| k in m && m[k] == v;
      assert m'[k] == v;
    }
    assert m'[zip] == canton;
  }

  /** Adding one ZIP code to the mapping adds it to its canton's set, creating
      the set when the canton is new, and leaves every other set alone. */
  lemma CantonIndexInsert(m: map<string, string>, zip: string, canton: string)
    requires zip !in m
    ensures var old_ := CantonIndex(m);
      CantonIndex(m[zip := canton])
        == if canton in old_ then old_[canton := old_[canton] + {zip}] else old_[canton := {zip}]
  {
    var before := CantonIndex(m);
    var after := CantonIndex(m[zip := canton]);
    var expected := if canton in before then before[canton := before[canton] + {zip}] else before[canton := {zip}];
    ValuesInsert(m, zip, canton);
    assert after.Keys == expected.Keys;
    forall c | c in after
      ensures after[c] == expected[c]
    {
      forall z
        ensures z in after[c] <==> z in expected[c]
      {
        if z == zip {
          assert z in after[c] <==> c == canton;
        }
      }
    }
  }

  /** `groupCantons(zipMap)`: walks the mapping's entries and adds each ZIP
      code to the set of its canton, creating the set on the canton's first
      appearance. */
  method GroupCantons(zipMap: map<string, string>) returns (cantonGroups: map<string, set<string>>)
    ensures cantonGroups == CantonIndex(zipMap)
  {
    cantonGroups := map[];
    var remaining := zipMap.Keys;
    assert zipMap - remaining == map[];
    while remaining != {}
      invariant remaining <= zipMap.Keys
      invariant cantonGroups == CantonIndex(zipMap - remaining)
      decreases remaining
    {
      var zip :| zip in remaining;
      var canton := zipMap[zip];
      ghost var done := zipMap - remaining;
      CantonIndexInsert(done, zip, canton);
      ghost var before := cantonGroups;
      if canton !in cantonGroups {
        cantonGroups := cantonGroups[canton := {}];
      }
      ghost var created := cantonGroups;
      cantonGroups := cantonGroups[canton := cantonGroups[canton] + {zip}];
      if canton !in before {
        assert created[canton] + {zip} == {zip};
        assert cantonGroups == before[canton := {zip}];
      }
      assert done[zip := canton] == zipMap - (remaining - {zip});
      remaining := remaining - {zip};
    }
    assert zipMap - remaining == zipMap;
  }

  // ---------------------------------------------------------------------
  // Filters

  /** `cantons[canton]?.has(String(item.locationZipCode))`: false when the
      canton is not in the index. */
  predicate InCanton(cantons: map<string, set<string>>, canton: string, item: Posting)
  {
    canton in cantons && ZipString(item.locationZipCode) in cantons[canton]
  }

  function CantonTest(cantons: map<string, set<string>>, canton: string): Posting -> bool
  {
    (item: Posting) => InCanton(cantons, canton, item)
  }

  function ProfessionTest(profession: string): Posting -> bool
  {
    (item: Posting) => item.professionNameDeMf == profession
  }

  /** The first stage of `applyFilters`: a falsy selection keeps everything. */
  function ByCanton(items: seq<Posting>, cantons: map<string, set<string>>, selectedCanton: Option<string>): seq<Posting>
  {
    if Truthy(selectedCanton) then Filter(items, CantonTest(cantons, selectedCanton.value)) else items
  }

  /** The second stage of `applyFilters`: a falsy selection keeps everything. */
  function ByProfession(items: seq<Posting>, selectProfession: Option<string>): seq<Posting>
  {
    if Truthy(selectProfession) then Filter(items, ProfessionTest(selectProfession.value)) else items
  }

  /** What `applyFilters` stores in `filteredData`. */
  function FilterPostings(data: seq<Posting>, cantons: map<string, set<string>>,
                          selectedCanton: Option<string>, selectProfession: Option<string>): seq<Posting>
  {
    ByProfession(ByCanton(data, cantons, selectedCanton), selectProfession)
  }

  /** An item passes both filters: the canton filter when a canton is
      selected, and the exact profession match when a profession is selected. */
  predicate Matches(item: Posting, cantons: map<string, set<string>>,
                    selectedCanton: Option<string>, selectProfession: Option<string>)
  {
    && (Truthy(selectedCanton) ==> InCanton(cantons, selectedCanton.value, item))
    && (Truthy(selectProfession) ==> item.professionNameDeMf == selectProfession.value)
  }

  /** The filtered list is an order-preserving subsequence of the data holding
      exactly the matching items, each as often as in the data. */
  lemma FilterPostingsSpec(data: seq<Posting>, cantons: map<string, set<string>>,
                           selectedCanton: Option<string>, selectProfession: Option<string>)
    ensures var r := FilterPostings(data, cantons, selectedCanton, selectProfession);
      && IsSubsequence(r, data)
      && (forall x :: x in r <==> x in data && Matches(x, cantons, selectedCanton, selectProfession))
      && (forall x :: multiset(r)[x] == if Matches(x, cantons, selectedCanton, selectProfession) then multiset(data)[x] else 0)
  {
    var byCanton := ByCanton(data, cantons, selectedCanton);
    var r := FilterPostings(data, cantons, selectedCanton, selectProfession);
    if Truthy(selectedCanton) {
      FilterIsSubsequence(data, CantonTest(cantons, selectedCanton.value));
    } else {
      SubsequenceReflexive(data);
    }
    if Truthy(selectProfession) {
      FilterIsSubsequence(byCanton, ProfessionTest(selectProfession.value));
    } else {
      SubsequenceReflexive(byCanton);
    }
    SubsequenceTransitive(r, byCanton, data);
    forall x
      ensures multiset(r)[x] == if Matches(x, cantons, selectedCanton, selectProfession) then multiset(data)[x] else 0
    {
      if Truthy(selectedCanton) {
        FilterCounts(data, CantonTest(cantons, selectedCanton.value), x);
      }
      if Truthy(selectProfession) {
        FilterCounts(byCanton, ProfessionTest(selectProfession.value), x);
      }
    }
  }

  /** A selected canton that the index does not know yields an empty list. */
  lemma UnknownCantonYieldsNothing(data: seq<Posting>, cantons: map<string, set<string>>,
                                   selectedCanton: Option<string>, selectProfession: Option<string>)
    requires Truthy(selectedCanton) && selectedCanton.value !in cantons
    ensures FilterPostings(data, cantons, selectedCanton, selectProfession) == []
  {
    FilterRejectsAll(data, CantonTest(cantons, selectedCanton.value));
  }

  /** With no canton and no profession selected (`null` or the empty "all"
      option), every item is kept in its place. */
  lemma NoSelectionKeepsAll(data: seq<Posting>, cantons: map<string, set<string>>,
                            selectedCanton: Option<string>, selectProfession: Option<string>)
    requires !Truthy(selectedCanton) && !Truthy(selectProfession)
    ensures FilterPostings(data, cantons, selectedCanton, selectProfession) == data
  {
  }

  /** Filtering the filtered list again with the same selections changes nothing. */
  lemma FilterPostingsIdempotent(data: seq<Posting>, cantons: map<string, set<string>>,
                                 selectedCanton: Option<string>, selectProfession: Option<string>)
    ensures var once := FilterPostings(data, cantons, selectedCanton, selectProfession);
      FilterPostings(once, cantons, selectedCanton, selectProfession) == once
  {
    var c := selectedCanton;
    var p := selectProfession;
    if Truthy(c) && Truthy(p) {
      var ct := CantonTest(cantons, c.value);
      var pt := ProfessionTest(p.value);
      var y := Filter(data, ct);
      calc {
        FilterPostings(FilterPostings(data, cantons, c, p), cantons, c, p);
        Filter(Filter(Filter(y, pt), ct), pt);
        { FilterCommute(y, pt, ct); }
        Filter(Filter(Filter(y, ct), pt), pt);
        { FilterIdempotent(data, ct); }
        Filter(Filter(y, pt), pt);
        { FilterIdempotent(y, pt); }
        Filter(y, pt);
      }
    } else if Truthy(c) {
      FilterIdempotent(data, CantonTest(cantons, c.value));
    } else if Truthy(p) {
      FilterIdempotent(data, ProfessionTest(p.value));
    }
  }

  /** Filtering by canton on the index built from a mapping keeps exactly the
      items whose ZIP code the mapping assigns to that canton. */
  lemma CantonFilterFollowsMapping(data: seq<Posting>, zipToCanton: map<string, string>, canton: string, x: Posting)
    requires canton != ""
    ensures x in FilterPostings(data, CantonIndex(zipToCanton), Some(canton), None)
        <==> x in data && ZipString(x.locationZipCode) in zipToCanton && zipToCanton[ZipString(x.locationZipCode)] == canton
  {
    FilterPostingsSpec(data, CantonIndex(zipToCanton), Some(canton), None);
  }

  // ---------------------------------------------------------------------
  // The element

  /** What `render` puts on screen: the error alone, or the filter controls,
      the cards of the current page and the navigation. `fetching` records the
      flag `render` passes to each card; the card takes only the item, so the
      flag does not change what a card shows. */
  datatype Screen =
    | ErrorMessage(message: string)
    | Cards(items: seq<Posting>, fetching: bool, nav: Option<seq<Button>>)

  class DataList {
    var data: seq<Posting>
    var fetching: bool
    var error: Option<string>
    var currentPage: int
    var itemsPerPage: int
    var filteredData: seq<Posting>
    var cantons: map<string, set<string>>
    var professions: seq<string>
    var selectedCanton: Option<string>
    var selectProfession: Option<string>

    /** The fields every method keeps: ten items per page and a 1-based page. */
    ghost predicate Valid()
      reads this
    {
      itemsPerPage == ItemsPerPage && currentPage >= 1
    }

    /** The current page is the first one or one that the filtered list has. */
    ghost predicate PageInRange()
      reads this
      requires Valid()
    {
      currentPage == 1 || currentPage <= TotalPages(|filteredData|, itemsPerPage)
    }

    /** `filteredData` is the data under the current selections. */
    ghost predicate Consistent()
      reads this
    {
      filteredData == FilterPostings(data, cantons, selectedCanton, selectProfession)
    }

    constructor ()
      ensures Valid() && PageInRange() && Consistent()
      ensures data == [] && fetching && error == None
      ensures currentPage == 1 && itemsPerPage == ItemsPerPage
      ensures filteredData == [] && cantons == map[] && professions == Professions
      ensures selectedCanton == None && selectProfession == None
    {
      data := [];
      fetching := true;
      error := None;
      currentPage := 1;
      itemsPerPage := ItemsPerPage;
      filteredData := [];
      cantons := map[];
      professions := Professions;
      selectedCanton := None;
      selectProfession := None;
    }

    /** `fetchData` with the two awaited results given: the dataset is stored
        as soon as it arrives; the canton index and `filteredData` only when
        the mapping arrives too; a rejection records its message; either way
        fetching ends. */
    method FetchData(dataset: Outcome<seq<Posting>>, zipToCanton: Outcome<map<string, string>>)
      requires Valid()
      modifies this
      ensures Valid() && !fetching
      ensures data == (if dataset.Resolved? then dataset.value else old(data))
      ensures dataset.Rejected? ==> error == Some(dataset.message)
      ensures dataset.Resolved? && zipToCanton.Rejected? ==> error == Some(zipToCanton.message)
      ensures dataset.Resolved? && zipToCanton.Resolved? ==>
        && error == old(error)
        && cantons == CantonIndex(zipToCanton.value)
        && filteredData == dataset.value
      ensures !(dataset.Resolved? && zipToCanton.Resolved?) ==>
        cantons == old(cantons) && filteredData == old(filteredData)
      ensures currentPage == old(currentPage) && itemsPerPage == old(itemsPerPage)
      ensures selectedCanton == old(selectedCanton) && selectProfession == old(selectProfession)
      ensures professions == old(professions)
      ensures old(currentPage) == 1 ==> PageInRange()
      ensures (dataset.Resolved? && zipToCanton.Resolved?
               && !old(Truthy(selectedCanton)) && !old(Truthy(selectProfession))) ==> Consistent()
    {
      match dataset {
        case Rejected(message) =>
          error := Some(message);
        case Resolved(items) =>
          data := items;
          match zipToCanton {
            case Rejected(message) =>
              error := Some(message);
            case Resolved(zipMap) =>
              cantons := GroupCantons(zipMap);
              filteredData := data;
          }
      }
      fetching := false;
    }

    /** `applyFilters`: narrows `data` by the selected canton and then by the
        selected profession, stores the result and goes back to page 1. */
    method ApplyFilters()
      requires Valid()
      modifies this
      ensures Valid() && PageInRange() && Consistent()
      ensures filteredData == FilterPostings(data, cantons, selectedCanton, selectProfession)
      ensures currentPage == 1
      ensures data == old(data) && cantons == old(cantons)
      ensures selectedCanton == old(selectedCanton) && selectProfession == old(selectProfession)
      ensures fetching == old(fetching) && error == old(error)
      ensures itemsPerPage == old(itemsPerPage) && professions == old(professions)
    {
      var filteredByCanton := ByCanton(data, cantons, selectedCanton);
      var filteredByProfession := ByProfession(filteredByCanton, selectProfession);
      filteredData := filteredByProfession;
      currentPage := 1;
    }

    /** `handleCantonChange`, by its net effect: select the canton, filter, and
        end the loading state. */
    method HandleCantonChange(cantonCode: string)
      requires Valid()
      modifies this
      ensures Valid() && PageInRange() && Consistent()
      ensures selectedCanton == Some(cantonCode) && selectProfession == old(selectProfession)
      ensures filteredData == FilterPostings(data, cantons, Some(cantonCode), selectProfession)
      ensures currentPage == 1 && !fetching
      ensures data == old(data) && cantons == old(cantons) && error == old(error)
      ensures itemsPerPage == old(itemsPerPage) && professions == old(professions)
    {
      selectedCanton := Some(cantonCode);
      fetching := true;
      ApplyFilters();
      fetching := false;
    }

    /** `handleProfessionChange`, by its net effect: select the profession,
        filter, and end the loading state. */
    method HandleProfessionChange(profession: string)
      requires Valid()
      modifies this
      ensures Valid() && PageInRange() && Consistent()
      ensures selectProfession == Some(profession) && selectedCanton == old(selectedCanton)
      ensures filteredData == FilterPostings(data, cantons, selectedCanton, Some(profession))
      ensures currentPage == 1 && !fetching
      ensures data == old(data) && cantons == old(cantons) && error == old(error)
      ensures itemsPerPage == old(itemsPerPage) && professions == old(professions)
    {
      selectProfession := Some(profession);
      fetching := true;
      ApplyFilters();
      fetching := false;
    }

    /** The navigation of the current render. */
    function Navigation(): Option<seq<Button>>
      reads this
      requires Valid()
    {
      NavButtons(currentPage, TotalPages(|filteredData|, itemsPerPage))
    }

    /** `onPageChange(page)`, by its net effect, for a click on an enabled
        button of the navigation on screen: that page becomes current. */
    method OnPageChange(page: int)
      requires Valid() && PageInRange()
      requires !Truthy(error) && page in EnabledTargets(Navigation())
      modifies this
      ensures Valid() && PageInRange()
      ensures currentPage == page && !fetching
      ensures 1 <= currentPage <= TotalPages(|filteredData|, itemsPerPage)
      ensures data == old(data) && filteredData == old(filteredData) && cantons == old(cantons)
      ensures selectedCanton == old(selectedCanton) && selectProfession == old(selectProfession)
      ensures error == old(error) && itemsPerPage == old(itemsPerPage) && professions == old(professions)
    {
      EnabledTargetsInRange(currentPage, TotalPages(|filteredData|, itemsPerPage));
      currentPage := page;
      fetching := true;
      fetching := false;
    }

    /** `render`: an error hides everything else; otherwise the current page
        of `filteredData` and the navigation are shown. */
    function Render(): (screen: Screen)
      reads this
      requires Valid()
      ensures Truthy(error) ==> screen == ErrorMessage(error.value)
      ensures !Truthy(error) ==> screen.Cards? && screen.fetching == fetching && screen.nav == Navigation()
      ensures !Truthy(error) ==> screen.items == PageItems(filteredData, currentPage, itemsPerPage)
      ensures !Truthy(error) ==> |screen.items| <= itemsPerPage
      ensures !Truthy(error) ==> forall i :: 0 <= i < |screen.items| ==> screen.items[i] in filteredData
    {
      if Truthy(error) then ErrorMessage(error.value)
      else
        PageItemsBounds(filteredData, currentPage, itemsPerPage);
        Cards(PageItems(filteredData, currentPage, itemsPerPage), fetching, Navigation())
    }

    /** Every card on screen is an item of the data that passes the selected
        filters. */
    lemma CardsMatchSelection()
      requires Valid() && Consistent() && !Truthy(error)
      ensures forall i :: 0 <= i < |Render().items| ==>
        Render().items[i] in data && Matches(Render().items[i], cantons, selectedCanton, selectProfession)
    {
      FilterPostingsSpec(data, cantons, selectedCanton, selectProfession);
    }
  }

  /** Selecting canton "ZH", whose index holds "8000" and "8001", keeps the
      posting at ZIP 8000 and drops the one at ZIP 9000. */
  lemma ZurichScenario(a: Posting, b: Posting)
    requires a.locationZipCode == ZipNumber(8000) && b.locationZipCode == ZipNumber(9000)
    ensures FilterPostings([a, b], map["ZH" := {"8000", "8001"}], Some("ZH"), None) == [a]
  {
    var cantons := map["ZH" := {"8000", "8001"}];
    var test := CantonTest(cantons, "ZH");
    assert Decimal(8000) == "8000";
    assert Decimal(9000) == "9000";
    assert test(a) && !test(b);
    assert [a, b][1..] == [b];
    assert Filter([b], test) == [];
  }
}
