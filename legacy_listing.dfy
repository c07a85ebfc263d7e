/** The older `data-list` element of src/js/components/list.js: one dataset,
    no filters, a text loading state, and pagination whose window logic is
    the same as Pagination.js and is therefore taken from `Pager`. */
module LegacyListing {
  import opened JsCore
  import opened Postings
  import opened Pager

  /** What `render` puts on screen. */
  datatype Screen =
    | Loading
    | ErrorMessage(message: string)
    | Cards(items: seq<Posting>, nav: Option<seq<Button>>)

  class DataList {
    var data: seq<Posting>
    var fetching: bool
    var error: Option<string>
    var currentPage: int
    var itemsPerPage: int

    ghost predicate Valid()
      reads this
    {
      itemsPerPage == ItemsPerPage && currentPage >= 1
    }

    /** The current page is the first one or one that the data has. */
    ghost predicate PageInRange()
      reads this
      requires Valid()
    {
      currentPage == 1 || currentPage <= TotalPages(|data|, itemsPerPage)
    }

    constructor ()
      ensures Valid() && PageInRange()
      ensures data == [] && fetching && error == None
      ensures currentPage == 1 && itemsPerPage == ItemsPerPage
    {
      data := [];
      fetching := true;
      error := None;
      currentPage := 1;
      itemsPerPage := ItemsPerPage;
    }

    /** `fetchData` with the awaited result given: store the dataset or the
        error message; either way fetching ends. */
    method FetchData(dataset: Outcome<seq<Posting>>)
      requires Valid()
      modifies this
      ensures Valid() && !fetching
      ensures dataset.Resolved? ==> data == dataset.value && error == old(error)
      ensures dataset.Rejected? ==> data == old(data) && error == Some(dataset.message)
      ensures currentPage == old(currentPage) && itemsPerPage == old(itemsPerPage)
      ensures old(currentPage) == 1 ==> PageInRange()
    {
      match dataset {
        case Resolved(items) =>
          data := items;
        case Rejected(message) =>
          error := Some(message);
      }
      fetching := false;
    }

    /** `renderPagination`: the navigation for the whole dataset. */
    method RenderPagination() returns (nav: Option<seq<Button>>)
      requires Valid()
      ensures nav == NavButtons(currentPage, TotalPages(|data|, itemsPerPage))
    {
      nav := Pager.RenderPagination(currentPage, |data|, itemsPerPage);
    }

    /** `render`: loading hides everything, then an error hides everything;
        otherwise the current page of the data and the navigation are shown. */
    function Render(): (screen: Screen)
      reads this
      requires Valid()
      ensures fetching ==> screen == Loading
      ensures !fetching && Truthy(error) ==> screen == ErrorMessage(error.value)
      ensures !fetching && !Truthy(error) ==>
        && screen.Cards?
        && screen.items == PageItems(data, currentPage, itemsPerPage)
        && |screen.items| <= itemsPerPage
        && screen.nav == NavButtons(currentPage, TotalPages(|data|, itemsPerPage))
    {
      if fetching then Loading
      else if Truthy(error) then ErrorMessage(error.value)
      else
        PageItemsBounds(data, currentPage, itemsPerPage);
        Cards(PageItems(data, currentPage, itemsPerPage), NavButtons(currentPage, TotalPages(|data|, itemsPerPage)))
    }

    /** The click handler of an enabled button on screen: its page becomes the
        current page, which stays within the pages of the data, and nothing
        else changes. */
    method Click(page: int)
      requires Valid() && PageInRange()
      requires Render().Cards? && page in EnabledTargets(Render().nav)
      modifies this
      ensures Valid() && PageInRange()
      ensures currentPage == page
      ensures 1 <= currentPage <= TotalPages(|data|, itemsPerPage)
      ensures data == old(data) && fetching == old(fetching) && error == old(error)
      ensures itemsPerPage == old(itemsPerPage)
    {
      EnabledTargetsInRange(currentPage, TotalPages(|data|, itemsPerPage));
      currentPage := page;
    }
  }
}
