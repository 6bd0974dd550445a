/** The saved-projects page: search and type filtering, the header counts,
    pagination by ten with its navigation clamps, and the delete dialog. The
    fetch and the delete request are not modelled; the outcome of the delete
    request is passed in. */
module Projects {
  import opened Common

  /** A saved estimation; a missing name is the empty string. */
  datatype Project = Project(id: string, projectName: string, kind: string)

  const All: string := "All"
  const RowsPerPage: nat := 10

  /** The type filter and the case-insensitive name search. */
  predicate Matches(p: Project, filterType: string, searchTerm: string)
  {
    (filterType == All || p.kind == filterType) && Includes(Lower(p.projectName), Lower(searchTerm))
  }

  /** `filtered`: the projects passing both checks, in their order. */
  function Filtered(projects: seq<Project>, filterType: string, searchTerm: string): (r: seq<Project>)
    ensures |r| <= |projects|
    ensures forall p :: p in r <==> p in projects && Matches(p, filterType, searchTerm)
  {
    Filter(projects, (p: Project) => Matches(p, filterType, searchTerm))
  }

  /** With the 'All' filter and an empty search every project is shown. */
  lemma FilterAllEmptySearch(projects: seq<Project>)
    ensures Filtered(projects, All, "") == projects
  {
    forall i | 0 <= i < |projects| ensures Matches(projects[i], All, "") {
      IncludesEmpty(Lower(projects[i].projectName));
    }
    FilterKeepsAll(projects, (p: Project) => Matches(p, All, ""));
  }

  /** The number of projects of one type. */
  function CountKind(s: seq<Project>, kind: string): (n: nat)
    ensures n <= |s|
  {
    |Filter(s, (p: Project) => p.kind == kind)|
  }

  /** The "Tile" and "Ceiling" counts never exceed the total shown. */
  lemma {:induction false} KindCountsBounded(s: seq<Project>)
    ensures CountKind(s, "Tile") + CountKind(s, "Ceiling") <= |s|
  {
    if s != [] {
      KindCountsBounded(s[1..]);
    }
  }

  /** `Math.ceil(totalCount / rowsPerPage) || 1`. */
  function TotalPages(totalCount: nat): (pages: nat)
    ensures pages >= 1
    ensures totalCount == 0 ==> pages == 1
    ensures totalCount > 0 ==> (pages - 1) * RowsPerPage < totalCount <= pages * RowsPerPage
  {
    var c := Ceil(totalCount as real / RowsPerPage as real);
    if c == 0 then 1 else c
  }

  /** The index `Array.prototype.slice` uses for a bound: negative bounds
      count from the end, and the result is clamped to [0, len]. */
  function SliceIndex(k: int, len: nat): (i: nat)
    ensures i <= len
    ensures 0 <= k <= len ==> i == k
  {
    if k < 0 then MaxI(len + k, 0) else MinI(k, len)
  }

  /** `Array.prototype.slice(start, end)`. */
  function Slice<T>(s: seq<T>, start: int, end: int): (r: seq<T>)
    ensures var a, b := SliceIndex(start, |s|), SliceIndex(end, |s|);
            (a < b ==> r == s[a..b]) && (a >= b ==> r == [])
  {
    var a, b := SliceIndex(start, |s|), SliceIndex(end, |s|);
    if a < b then s[a..b] else []
  }

  /** `paginated`: the rows of page `currentPage` (counting from 1). */
  function Paginated(filtered: seq<Project>, currentPage: int): (r: seq<Project>)
    ensures currentPage >= 1 ==>
              r == filtered[MinI((currentPage - 1) * RowsPerPage, |filtered|)..MinI(currentPage * RowsPerPage, |filtered|)]
  {
    Slice(filtered, (currentPage - 1) * RowsPerPage, currentPage * RowsPerPage)
  }

  /** Every page, whatever the page number, holds at most ten rows. */
  lemma PageSize(filtered: seq<Project>, currentPage: int)
    ensures |Paginated(filtered, currentPage)| <= RowsPerPage
  {
    var n := |filtered|;
    var start, end := (currentPage - 1) * RowsPerPage, currentPage * RowsPerPage;
    assert end == start + 10;
  }

  /** Pages 1 to k laid end to end. */
  function PagesUpTo(filtered: seq<Project>, k: nat): seq<Project>
  {
    if k == 0 then [] else PagesUpTo(filtered, k - 1) + Paginated(filtered, k)
  }

  /** The first k pages are the first 10·k rows. */
  lemma {:induction false} PagesUpToPrefix(filtered: seq<Project>, k: nat)
    ensures PagesUpTo(filtered, k) == filtered[..MinI(k * RowsPerPage, |filtered|)]
  {
    if k > 0 {
      PagesUpToPrefix(filtered, k - 1);
      var lo := MinI((k - 1) * RowsPerPage, |filtered|);
      var hi := MinI(k * RowsPerPage, |filtered|);
      assert filtered[..lo] + filtered[lo..hi] == filtered[..hi];
    }
  }

  /** Pages 1 to `totalPages` together are exactly the filtered list. */
  lemma PagesCoverFiltered(filtered: seq<Project>)
    ensures PagesUpTo(filtered, TotalPages(|filtered|)) == filtered
  {
    PagesUpToPrefix(filtered, TotalPages(|filtered|));
    assert filtered[..|filtered|] == filtered;
  }

  /** Which project the delete dialog is about. */
  datatype Target = Target(id: string, kind: string)

  /** The page's state: the loaded projects, the search box, the type
      filter, the current page and the delete dialog. */
  class ProjectsPage {
    var projects: seq<Project>
    var searchTerm: string
    var filterType: string
    var currentPage: int
    var confirmOpen: bool
    var deleteTarget: Option<Target>

    /** The page as it starts, after the projects have been loaded. */
    constructor (loaded: seq<Project>)
      ensures projects == loaded && searchTerm == "" && filterType == All
      ensures currentPage == 1 && !confirmOpen && deleteTarget.None? && PageInRange()
    {
      projects := loaded;
      searchTerm := "";
      filterType := All;
      currentPage := 1;
      confirmOpen := false;
      deleteTarget := None;
    }

    function Shown(): seq<Project>
      reads this
    {
      Filtered(projects, filterType, searchTerm)
    }

    function Pages(): (n: nat)
      reads this
      ensures n >= 1
    {
      TotalPages(|Shown()|)
    }

    /** The current page is one of the pages that have a button. */
    predicate PageInRange()
      reads this
    {
      1 <= currentPage <= Pages()
    }

    /** The previous-page button: never below page 1. */
    method PrevPage()
      modifies this
      ensures currentPage == MaxI(1, old(currentPage) - 1) && currentPage >= 1
      ensures old(PageInRange()) ==> PageInRange()
      ensures projects == old(projects) && searchTerm == old(searchTerm) && filterType == old(filterType)
      ensures confirmOpen == old(confirmOpen) && deleteTarget == old(deleteTarget)
    {
      currentPage := MaxI(1, currentPage - 1);
    }

    /** The next-page button: never beyond the last page. */
    method NextPage()
      modifies this
      ensures currentPage == MinI(Pages(), old(currentPage) + 1) && currentPage <= Pages()
      ensures old(PageInRange()) ==> PageInRange()
      ensures projects == old(projects) && searchTerm == old(searchTerm) && filterType == old(filterType)
      ensures confirmOpen == old(confirmOpen) && deleteTarget == old(deleteTarget)
    {
      currentPage := MinI(Pages(), currentPage + 1);
    }

    /** The numbered button of page i + 1; buttons exist for every page. */
    method GoToPage(i: nat)
      requires i < Pages()
      modifies this
      ensures currentPage == i + 1 && PageInRange()
      ensures projects == old(projects) && searchTerm == old(searchTerm) && filterType == old(filterType)
      ensures confirmOpen == old(confirmOpen) && deleteTarget == old(deleteTarget)
    {
      currentPage := i + 1;
    }

    /** Typing in the search box. The effect on the filters resets the page,
        but only when the search actually changes. */
    method SetSearch(q: string)
      modifies this
      ensures searchTerm == q
      ensures currentPage == if q == old(searchTerm) then old(currentPage) else 1
      ensures old(PageInRange()) || q != old(searchTerm) ==> PageInRange()
      ensures projects == old(projects) && filterType == old(filterType)
      ensures confirmOpen == old(confirmOpen) && deleteTarget == old(deleteTarget)
    {
      if q != searchTerm {
        currentPage := 1;
      }
      searchTerm := q;
    }

    /** Choosing a type filter. As for the search, the page is reset only
        when the filter changes: clicking the active pill changes nothing. */
    method SetFilter(f: string)
      modifies this
      ensures filterType == f
      ensures currentPage == if f == old(filterType) then old(currentPage) else 1
      ensures old(PageInRange()) || f != old(filterType) ==> PageInRange()
      ensures projects == old(projects) && searchTerm == old(searchTerm)
      ensures confirmOpen == old(confirmOpen) && deleteTarget == old(deleteTarget)
    {
      if f != filterType {
        currentPage := 1;
      }
      filterType := f;
    }

    /** The delete icon of a row opens the dialog for that project. */
    method DeleteClick(id: string, kind: string)
      modifies this
      ensures deleteTarget == Some(Target(id, kind)) && confirmOpen
      ensures projects == old(projects) && searchTerm == old(searchTerm) && filterType == old(filterType)
      ensures currentPage == old(currentPage)
    {
      deleteTarget := Some(Target(id, kind));
      confirmOpen := true;
    }

    /** `handleConfirmDelete`: without a target nothing happens; otherwise a
        successful request removes every project with the target's id, and
        the dialog is closed whatever the outcome. */
    method ConfirmDelete(requestSucceeded: bool) returns (alerted: bool)
      modifies this
      ensures alerted <==> old(deleteTarget).Some? && !requestSucceeded
      ensures old(deleteTarget).None? ==>
                projects == old(projects) && confirmOpen == old(confirmOpen) && deleteTarget.None?
      ensures old(deleteTarget).Some? && requestSucceeded ==>
                projects == WithoutId(old(projects), old(deleteTarget).value.id)
      ensures old(deleteTarget).Some? && !requestSucceeded ==> projects == old(projects)
      ensures old(deleteTarget).Some? ==> !confirmOpen && deleteTarget.None?
      ensures searchTerm == old(searchTerm) && filterType == old(filterType) && currentPage == old(currentPage)
    {
      alerted := false;
      if deleteTarget.None? {
        return;
      }
      var id := deleteTarget.value.id;
      if requestSucceeded {
        projects := WithoutId(projects, id);
      } else {
        alerted := true;
      }
      confirmOpen := false;
      deleteTarget := None;
    }

    /** `handleCancelDelete`: the dialog closes and the projects stay. */
    method CancelDelete()
      modifies this
      ensures !confirmOpen && deleteTarget.None?
      ensures projects == old(projects) && searchTerm == old(searchTerm) && filterType == old(filterType)
      ensures currentPage == old(currentPage)
    {
      confirmOpen := false;
      deleteTarget := None;
    }
  }

  /** `projects.filter(p => p._id !== id)`: exactly the projects with another
      id remain, in their order. */
  function WithoutId(projects: seq<Project>, id: string): (r: seq<Project>)
    ensures |r| <= |projects|
    ensures forall p :: p in r <==> p in projects && p.id != id
  {
    Filter(projects, (p: Project) => p.id != id)
  }

  /** Deleting an id no project has leaves the list as it was. */
  lemma DeleteUnknownIdKeepsAll(projects: seq<Project>, id: string)
    requires forall p :: p in projects ==> p.id != id
    ensures WithoutId(projects, id) == projects
  {
    FilterKeepsAll(projects, (p: Project) => p.id != id);
  }
}
