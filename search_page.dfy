/**
 * The search page: the page counter with its Prev/Next buttons, and the category
 * taken from the last segment of the route's path.
 */
module SearchPage {
  import opened Storefront
  import PathSegments

  // ---------------------------------------------------------------------------
  // Pagination

  predicate IsPrevPage(page: int)
  {
    page > 1
  }

  /** False until search results have loaded (`searchedData` is undefined). */
  predicate IsNextPage(page: int, totalPage: Option<int>)
  {
    totalPage.Some? && page < totalPage.value
  }

  /** The Prev/Next bar is rendered only for loaded results with more than one page. */
  predicate ShowPagination(totalPage: Option<int>)
  {
    totalPage.Some? && totalPage.value > 1
  }

  datatype PageClick = Prev | Next

  /**
   * One click on the pagination bar. The updaters move the page by exactly one; a
   * hidden bar or a disabled button delivers no click at all.
   */
  function PageStep(page: int, totalPage: Option<int>, click: PageClick): (next: int)
    ensures next == page
      || (click.Prev? && next == page - 1 && ShowPagination(totalPage) && IsPrevPage(page))
      || (click.Next? && next == page + 1 && ShowPagination(totalPage) && IsNextPage(page, totalPage))
    ensures next != page <==>
      ShowPagination(totalPage) && (if click.Prev? then IsPrevPage(page) else IsNextPage(page, totalPage))
  {
    if !ShowPagination(totalPage) then page
    else
      match click
      case Prev => if IsPrevPage(page) then page - 1 else page
      case Next => if IsNextPage(page, totalPage) then page + 1 else page
  }

  function PageAfter(page: int, totalPage: Option<int>, clicks: seq<PageClick>): int
    decreases |clicks|
  {
    if clicks == [] then page
    else PageAfter(PageStep(page, totalPage, clicks[0]), totalPage, clicks[1..])
  }

  /**
   * The page never drops below one, and once results are loaded a page within
   * [1, totalPage] stays within it, whatever the clicks.
   */
  lemma {:induction false} PageStaysInRange(page: int, totalPage: Option<int>, clicks: seq<PageClick>)
    requires 1 <= page
    ensures 1 <= PageAfter(page, totalPage, clicks)
    ensures totalPage.Some? && page <= totalPage.value ==> PageAfter(page, totalPage, clicks) <= totalPage.value
    decreases |clicks|
  {
    if clicks != [] {
      PageStaysInRange(PageStep(page, totalPage, clicks[0]), totalPage, clicks[1..]);
    }
  }

  // ---------------------------------------------------------------------------
  // Category from the route

  /** `paramSearch || ""`: the route's category parameter, or the empty category. */
  function InitialCategory(paramSearch: Option<string>): (c: string)
    ensures paramSearch.None? ==> c == ""
    ensures paramSearch.Some? ==> c == paramSearch.value
  {
    if paramSearch.Some? then paramSearch.value else ""
  }

  /** `pathname.split("/").pop() || ""`: the text after the last "/". */
  function CategoryFromPath(pathname: string): (c: string)
    ensures '/' !in c
    ensures |c| <= |pathname| && c == pathname[|pathname| - |c|..]
    ensures |c| == |pathname| || pathname[|pathname| - |c| - 1] == '/'
  {
    PathSegments.LastSegment(pathname, '/')
  }

  /**
   * The category-sync effect: the path's last segment replaces the category unless
   * it is "search" or already the category.
   */
  function NextCategory(pathname: string, category: string): (c: string)
    ensures c == category || (c == CategoryFromPath(pathname) && c != "search")
    ensures c != category <==> CategoryFromPath(pathname) != "search" && CategoryFromPath(pathname) != category
  {
    var newCategory := CategoryFromPath(pathname);
    if newCategory != "search" && newCategory != category then newCategory else category
  }

  /**
   * The effect runs again after it sets the category (the category is one of its
   * dependencies); that second run changes nothing, so the effect settles.
   */
  lemma CategorySyncSettles(pathname: string, category: string)
    ensures NextCategory(pathname, NextCategory(pathname, category)) == NextCategory(pathname, category)
  {
  }

  /** On a category route ".../<name>" the effect selects exactly <name>. */
  lemma CategoryRouteSelects(prefix: string, name: string, category: string)
    requires '/' !in name && name != "search"
    ensures NextCategory(prefix + "/" + name, category) == name
  {
    PathSegments.LastSegmentOfAppend(prefix, '/', name);
  }

  /** On ".../search" the effect leaves the category as it is. */
  lemma SearchRouteKeepsCategory(prefix: string, category: string)
    ensures NextCategory(prefix + "/search", category) == category
  {
    assert prefix + "/search" == prefix + "/" + "search";
    PathSegments.LastSegmentOfAppend(prefix, '/', "search");
  }

  /** The state of the search page that its handlers change. */
  class SearchView {
    var page: int
    var category: string
    var totalPage: Option<int>

    /** Results are loaded and the page is one of theirs. */
    predicate InRange()
      reads this
    {
      totalPage.Some? && 1 <= page <= totalPage.value
    }

    constructor (paramSearch: Option<string>)
      ensures page == 1 && category == InitialCategory(paramSearch) && totalPage == None
    {
      page := 1;
      category := InitialCategory(paramSearch);
      totalPage := None;
    }

    /** The search query returned a result with `total` pages. */
    method ResultsLoaded(total: int)
      modifies this
      ensures totalPage == Some(total) && page == old(page) && category == old(category)
    {
      totalPage := Some(total);
    }

    method ClickPrev()
      modifies this
      ensures page == PageStep(old(page), totalPage, Prev)
      ensures category == old(category) && totalPage == old(totalPage)
      ensures old(InRange()) ==> InRange()
    {
      if ShowPagination(totalPage) && IsPrevPage(page) {
        page := page - 1;
      }
    }

    method ClickNext()
      modifies this
      ensures page == PageStep(old(page), totalPage, Next)
      ensures category == old(category) && totalPage == old(totalPage)
      ensures old(InRange()) ==> InRange()
    {
      if ShowPagination(totalPage) && IsNextPage(page, totalPage) {
        page := page + 1;
      }
    }

    /**
     * The category-sync effect, which runs whenever the location or the category
     * changes (so also right after the category select sets a new category).
     */
    method SyncCategory(pathname: string)
      modifies this
      ensures category == NextCategory(pathname, old(category))
      ensures page == old(page) && totalPage == old(totalPage)
    {
      var newCategory := CategoryFromPath(pathname);
      if newCategory != "search" && newCategory != category {
        category := newCategory;
      }
    }
  }
}
