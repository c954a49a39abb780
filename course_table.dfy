/** The courses list (CourseTable.tsx): the fetched courses are filtered by
    a case-insensitive search on their name and shown six to a page. */
module CourseTable {
  import opened JsValues
  import opened Text

  const ItemsPerPage := 6

  /** A course as listed; `name` is None when the server sent none. */
  datatype Course = Course(id: Value, name: Option<string>)

  /** `course.name?.toLowerCase().includes(searchQuery.toLowerCase())`: a
      course without a name never matches, not even the empty query. */
  predicate MatchesQuery(course: Course, query: string) {
    course.name.Some? && Contains(Lower(course.name.value), Lower(query))
  }

  /** `courses.filter(...)`, in the original order. */
  function FilterCourses(courses: seq<Course>, query: string): (r: seq<Course>)
    ensures |r| <= |courses|
    ensures forall c :: c in r <==> c in courses && MatchesQuery(c, query)
  {
    if courses == [] then []
    else
      var last := courses[|courses| - 1];
      FilterCourses(courses[..|courses| - 1], query) + (if MatchesQuery(last, query) then [last] else [])
  }

  /** Filtering two runs of courses filters each in place. */
  lemma {:induction false} FilterAppend(a: seq<Course>, b: seq<Course>, query: string)
    ensures FilterCourses(a + b, query) == FilterCourses(a, query) + FilterCourses(b, query)
    decreases |b|
  {
    if b != [] {
      var init := b[..|b| - 1];
      var last := b[|b| - 1];
      var tail := if MatchesQuery(last, query) then [last] else [];
      assert (a + b)[..|a + b| - 1] == a + init;
      assert FilterCourses(a + b, query) == FilterCourses(a + init, query) + tail;
      assert FilterCourses(b, query) == FilterCourses(init, query) + tail;
      FilterAppend(a, init, query);
    } else {
      assert a + b == a;
    }
  }

  /** With the empty query every named course is listed, in order. */
  lemma {:induction false} EmptyQueryKeepsNamed(courses: seq<Course>)
    requires forall k :: 0 <= k < |courses| ==> courses[k].name.Some?
    ensures FilterCourses(courses, "") == courses
  {
    if courses != [] {
      EmptyQueryKeepsNamed(courses[..|courses| - 1]);
      assert courses == courses[..|courses| - 1] + [courses[|courses| - 1]];
    }
  }

  /** `Math.ceil(n / ITEMS_PER_PAGE)`: the fewest pages of six that hold n. */
  function TotalPages(n: nat): (pages: nat)
    ensures pages * ItemsPerPage >= n
    ensures pages == 0 || (pages - 1) * ItemsPerPage < n
  {
    (n + ItemsPerPage - 1) / ItemsPerPage
  }

  /** How `Array.prototype.slice` reads an index: negative counts from the
      end, and the result is kept within the array. */
  function SliceIndex(i: int, len: nat): (r: nat)
    ensures r <= len
    ensures 0 <= i <= len ==> r == i
  {
    if i < 0 then (if len + i < 0 then 0 else len + i)
    else if i > len then len
    else i
  }

  /** `s.slice(start, end)` */
  function Slice<T>(s: seq<T>, start: int, end: int): (r: seq<T>)
    ensures 0 <= start <= end <= |s| ==> r == s[start..end]
  {
    var a := SliceIndex(start, |s|);
    var b := SliceIndex(end, |s|);
    if a < b then s[a..b] else []
  }

  /** The courses on page `page` (counted from 1). Whatever the page, it
      holds at most six. */
  function PageOf<T>(s: seq<T>, page: int): (r: seq<T>)
    ensures |r| <= ItemsPerPage
  {
    Slice(s, (page - 1) * ItemsPerPage, page * ItemsPerPage)
  }

  /** The pages 1..k one after the other. */
  function Pages<T>(s: seq<T>, k: nat): seq<T> {
    if k == 0 then [] else Pages(s, k - 1) + PageOf(s, k)
  }

  function Min(a: int, b: int): int {
    if a <= b then a else b
  }

  /** The first k pages are the first 6k courses. */
  lemma {:induction false} PagesArePrefix<T>(s: seq<T>, k: nat)
    ensures Pages(s, k) == s[..Min(k * ItemsPerPage, |s|)]
  {
    if k > 0 {
      PagesArePrefix(s, k - 1);
      var lo := Min((k - 1) * ItemsPerPage, |s|);
      var hi := Min(k * ItemsPerPage, |s|);
      if (k - 1) * ItemsPerPage <= |s| {
        assert PageOf(s, k) == s[lo..hi];
      } else {
        assert PageOf(s, k) == [];
      }
      assert s[..lo] + s[lo..hi] == s[..hi];
    }
  }

  /** The pagination buttons cover the list: pages 1..TotalPages, read one
      after the other, are the whole filtered list. */
  lemma PagesCoverAll<T>(s: seq<T>)
    ensures Pages(s, TotalPages(|s|)) == s
  {
    PagesArePrefix(s, TotalPages(|s|));
  }

  /** The buttons address exactly the non-empty pages: every page from 1 to
      TotalPages has a course, every later page none. */
  lemma PageNonEmptyExactlyInRange<T>(s: seq<T>, page: int)
    requires page >= 1
    ensures PageOf(s, page) != [] <==> page <= TotalPages(|s|)
  {
    if page <= TotalPages(|s|) {
      assert (page - 1) * ItemsPerPage < |s|;
      assert s[(page - 1) * ItemsPerPage] in PageOf(s, page);
    }
  }

  /** The reply to `GetCourses`: `items` is None when `data.courses` is
      missing, whose read then throws; a rejected fetch or unreadable body
      is `CoursesFetchFailed`. */
  datatype CoursesReply = CoursesReplied(isSuccess: bool, items: Option<seq<Course>>) | CoursesFetchFailed

  class CoursesTable {
    var courses: seq<Course>
    var searchQuery: string
    var currentPage: int
    var loading: bool

    constructor ()
      ensures courses == [] && searchQuery == "" && currentPage == 1 && loading
    {
      courses := [];
      searchQuery := "";
      currentPage := 1;
      loading := true;
    }

    /** `filteredCourses` */
    function Filtered(): seq<Course>
      reads this
    {
      FilterCourses(courses, searchQuery)
    }

    /** `paginatedCourses` */
    function Visible(): seq<Course>
      reads this
    {
      PageOf(Filtered(), currentPage)
    }

    /** The page buttons are shown when there is more than one page. */
    predicate PaginationShown()
      reads this
    {
      TotalPages(|Filtered()|) > 1
    }

    /** `fetchCourses` */
    method FetchCourses(reply: CoursesReply)
      modifies this`courses, this`loading
      ensures !loading
      ensures reply.CoursesReplied? && reply.isSuccess && reply.items.Some? ==> courses == reply.items.value
      ensures !(reply.CoursesReplied? && reply.isSuccess && reply.items.Some?) ==> courses == old(courses)
    {
      loading := true;
      if reply.CoursesReplied? && reply.isSuccess && reply.items.Some? {
        courses := reply.items.value;
      }
      loading := false;
    }

    /** The search input's `onChange`: a new query goes back to page 1,
        which shows the first six matching courses. */
    method OnSearchChange(typed: string)
      modifies this`searchQuery, this`currentPage
      ensures searchQuery == typed && currentPage == 1
      ensures Visible() == Filtered()[..Min(ItemsPerPage, |Filtered()|)]
    {
      searchQuery := typed;
      currentPage := 1;
      PagesArePrefix(Filtered(), 1);
    }

    /** The page button at position idx, one of the TotalPages shown. The
        page it opens is never empty. */
    method OnPageClick(idx: nat)
      requires idx < TotalPages(|Filtered()|)
      modifies this`currentPage
      ensures currentPage == idx + 1
      ensures Visible() != [] && |Visible()| <= ItemsPerPage
    {
      currentPage := idx + 1;
      PageNonEmptyExactlyInRange(Filtered(), currentPage);
    }
  }
}
