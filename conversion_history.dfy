/**
 * The history table (client/src/components/conversion_history/ConversionHistory.jsx):
 * the fetched conversions, sorted in place on every render by the active
 * column, filtered by a lower-cased search text, and cut into pages of ten.
 */
module ConversionHistory {
  import opened Wrappers
  import opened FileUpload

  /**
   * One row of GET /api/v1/midis. Dates are the server's `isoformat()`
   * strings (ISO 8601, date and time).
   */
  datatype Entry = Entry(midiId: int, title: string, name: string, email: string, date: string)

  /** The sorting criteria the headers reach. */
  datatype Criterion = ByTitle | ByName | ByDate | ByEmail

  /** The four sortable column headers, by their captions. */
  datatype Header = FileHeader | NameHeader | EmailHeader | DateHeader

  const PageSize: nat := 10
  const AscendingIndicator: string := " ▲"
  const DescendingIndicator: string := " ▼"

  /**
   * The criterion a header sorts by (ConversionHistory.jsx:283-294): the
   * "Email" header sorts by date and the "Date" header by email.
   */
  function HeaderCriterion(h: Header): (c: Criterion)
    ensures h == FileHeader <==> c == ByTitle
    ensures h == NameHeader <==> c == ByName
    ensures h == EmailHeader <==> c == ByDate
    ensures h == DateHeader <==> c == ByEmail
  {
    match h
    case FileHeader => ByTitle
    case NameHeader => ByName
    case EmailHeader => ByDate
    case DateHeader => ByEmail
  }

  // ---------------------------------------------------------------------------
  // Comparison
  // ---------------------------------------------------------------------------

  /** `localeCompare`, taken as lexicographic order on character codes: -1, 0 or 1. */
  function StrCompare(a: string, b: string): (c: int)
    ensures -1 <= c <= 1
    ensures c == 0 <==> a == b
  {
    if |a| == 0 && |b| == 0 then 0
    else if |a| == 0 then -1
    else if |b| == 0 then 1
    else if a[0] < b[0] then -1
    else if a[0] > b[0] then 1
    else
      var c := StrCompare(a[1..], b[1..]);
      assert a == [a[0]] + a[1..] && b == [b[0]] + b[1..];
      c
  }

  lemma {:induction false} StrCompareAntisymmetric(a: string, b: string)
    ensures StrCompare(a, b) == -StrCompare(b, a)
  {
    if |a| > 0 && |b| > 0 && a[0] == b[0] {
      StrCompareAntisymmetric(a[1..], b[1..]);
    }
  }

  lemma {:induction false} StrCompareTransitive(a: string, b: string, c: string)
    requires StrCompare(a, b) <= 0 && StrCompare(b, c) <= 0
    ensures StrCompare(a, c) <= 0
  {
    if |a| > 0 && |b| > 0 && |c| > 0 && a[0] == b[0] == c[0] {
      StrCompareTransitive(a[1..], b[1..], c[1..]);
    }
  }

  /** The field a criterion compares. */
  function Key(e: Entry, c: Criterion): string {
    match c
    case ByTitle => e.title
    case ByName => e.name
    case ByDate => e.date
    case ByEmail => e.email
  }

  /**
   * `sortItems` (ConversionHistory.jsx:197-213): each criterion compares its
   * field, with the arguments swapped when descending. Date subtraction on
   * ISO dates orders like the strings, so it is compared as a string too.
   */
  function Compare(c: Criterion, ascending: bool, a: Entry, b: Entry): (r: int)
    ensures -1 <= r <= 1
    ensures r == 0 <==> Key(a, c) == Key(b, c)
  {
    match c
    case ByTitle => if ascending then StrCompare(a.title, b.title) else StrCompare(b.title, a.title)
    case ByName => if ascending then StrCompare(a.name, b.name) else StrCompare(b.name, a.name)
    case ByDate => if ascending then StrCompare(a.date, b.date) else StrCompare(b.date, a.date)
    case ByEmail => if ascending then StrCompare(a.email, b.email) else StrCompare(b.email, a.email)
  }

  /** Descending order is ascending order with the arguments swapped, and the opposite sign. */
  lemma {:induction false} DescendingSwapsArguments(c: Criterion, a: Entry, b: Entry)
    ensures Compare(c, false, a, b) == Compare(c, true, b, a)
    ensures Compare(c, false, a, b) == -Compare(c, true, a, b)
  {
    StrCompareAntisymmetric(Key(a, c), Key(b, c));
  }

  /** `a` may precede `b`. */
  predicate Precedes(c: Criterion, ascending: bool, a: Entry, b: Entry) {
    Compare(c, ascending, a, b) <= 0
  }

  lemma PrecedesTotal(c: Criterion, ascending: bool, a: Entry, b: Entry)
    ensures Precedes(c, ascending, a, b) || Precedes(c, ascending, b, a)
  {
    StrCompareAntisymmetric(Key(a, c), Key(b, c));
  }

  lemma PrecedesTransitive(c: Criterion, ascending: bool, a: Entry, b: Entry, d: Entry)
    requires Precedes(c, ascending, a, b) && Precedes(c, ascending, b, d)
    ensures Precedes(c, ascending, a, d)
  {
    if ascending {
      StrCompareTransitive(Key(a, c), Key(b, c), Key(d, c));
    } else {
      StrCompareTransitive(Key(d, c), Key(b, c), Key(a, c));
    }
  }

  // ---------------------------------------------------------------------------
  // Sorting
  // ---------------------------------------------------------------------------

  /** Every entry may precede every later one. */
  ghost predicate Sorted(s: seq<Entry>, c: Criterion, ascending: bool) {
    forall i, j :: 0 <= i < j < |s| ==> Precedes(c, ascending, s[i], s[j])
  }

  /** Insertion of `x` before the first entry it may precede. */
  function Insert(x: Entry, s: seq<Entry>, c: Criterion, ascending: bool): (r: seq<Entry>)
    requires Sorted(s, c, ascending)
    ensures Sorted(r, c, ascending)
    ensures multiset(r) == multiset(s) + multiset{x}
  {
    if s == [] then [x]
    else if Precedes(c, ascending, x, s[0]) then
      forall j | 0 <= j < |s| ensures Precedes(c, ascending, x, s[j]) {
        if j > 0 { PrecedesTransitive(c, ascending, x, s[0], s[j]); }
      }
      [x] + s
    else
      PrecedesTotal(c, ascending, x, s[0]);
      var rest := Insert(x, s[1..], c, ascending);
      assert s == [s[0]] + s[1..];
      var r := [s[0]] + rest;
      forall j | 0 < j < |r| ensures Precedes(c, ascending, s[0], r[j]) {
        assert r[j] in multiset(rest);
      }
      r
  }

  /**
   * The effect of `convertedFiles.sort(sortItems)` (ConversionHistory.jsx:222):
   * the same entries, ordered by the active comparator.
   */
  function Sort(s: seq<Entry>, c: Criterion, ascending: bool): (r: seq<Entry>)
    ensures Sorted(r, c, ascending)
    ensures multiset(r) == multiset(s)
  {
    if s == [] then []
    else
      assert s == [s[0]] + s[1..];
      Insert(s[0], Sort(s[1..], c, ascending), c, ascending)
  }

  function Reverse(s: seq<Entry>): (r: seq<Entry>)
    ensures |r| == |s|
    ensures forall i :: 0 <= i < |s| ==> r[i] == s[|s| - 1 - i]
  {
    if s == [] then [] else Reverse(s[1..]) + [s[0]]
  }

  /** A list in descending order is, read backwards, in ascending order. */
  lemma DescendingIsReversedAscending(s: seq<Entry>, c: Criterion)
    ensures Sorted(s, c, false) <==> Sorted(Reverse(s), c, true)
  {
    var r := Reverse(s);
    forall i, j | 0 <= i < j < |s| ensures Precedes(c, false, s[i], s[j]) <==> Precedes(c, true, r[|s| - 1 - j], r[|s| - 1 - i]) {
      DescendingSwapsArguments(c, s[i], s[j]);
    }
    if Sorted(Reverse(s), c, true) {
      forall i, j | 0 <= i < j < |s| ensures Precedes(c, false, s[i], s[j]) {
        assert Precedes(c, true, r[|s| - 1 - j], r[|s| - 1 - i]);
      }
    }
    if Sorted(s, c, false) {
      forall i, j | 0 <= i < j < |r| ensures Precedes(c, true, r[i], r[j]) {
        assert Precedes(c, false, s[|s| - 1 - j], s[|s| - 1 - i]);
      }
    }
  }

  // ---------------------------------------------------------------------------
  // Search
  // ---------------------------------------------------------------------------

  /** `toLowerCase` on the ASCII letters. */
  function LowerChar(ch: char): (r: char)
    ensures !('A' <= r <= 'Z')
    ensures 'A' <= ch <= 'Z' ==> r as int == ch as int + ('a' as int - 'A' as int) && 'a' <= r <= 'z'
    ensures !('A' <= ch <= 'Z') ==> r == ch
  {
    if 'A' <= ch <= 'Z' then (ch as int - 'A' as int + 'a' as int) as char else ch
  }

  function Lower(s: string): (r: string)
    ensures |r| == |s|
    ensures forall i :: 0 <= i < |s| ==> r[i] == LowerChar(s[i])
  {
    seq(|s|, i requires 0 <= i < |s| => LowerChar(s[i]))
  }

  /** `haystack.includes(needle)`. */
  function Includes(haystack: string, needle: string): (r: bool)
    ensures r <==> exists i :: OccursAt(haystack, needle, i)
  {
    FindFrom(haystack, needle, 0).Some?
  }

  /**
   * The search predicate (ConversionHistory.jsx:229-235): the lower-cased
   * title, name or email, or the date as it is, contains the query. The
   * query itself is stored lower-cased.
   */
  predicate Matches(e: Entry, query: string) {
    Includes(Lower(e.title), query) || Includes(Lower(e.name), query) ||
    Includes(Lower(e.email), query) || Includes(e.date, query)
  }

  /** `convertedFiles.filter(...)`: exactly the matching entries, each as often as before. */
  function Filter(s: seq<Entry>, query: string): (r: seq<Entry>)
    ensures |r| <= |s|
    ensures forall e :: multiset(r)[e] == if Matches(e, query) then multiset(s)[e] else 0
    ensures forall e :: e in r <==> e in s && Matches(e, query)
  {
    if s == [] then []
    else
      assert s == [s[0]] + s[1..];
      var rest := Filter(s[1..], query);
      if Matches(s[0], query) then [s[0]] + rest else rest
  }

  /** Filtering keeps the order of the entries it keeps, so a sorted list stays sorted. */
  lemma {:induction false} FilterKeepsSorted(s: seq<Entry>, query: string, c: Criterion, ascending: bool)
    requires Sorted(s, c, ascending)
    ensures Sorted(Filter(s, query), c, ascending)
  {
    if s != [] {
      assert Sorted(s[1..], c, ascending);
      FilterKeepsSorted(s[1..], query, c, ascending);
      var rest := Filter(s[1..], query);
      if Matches(s[0], query) {
        var r := [s[0]] + rest;
        forall j | 0 < j < |r| ensures Precedes(c, ascending, s[0], r[j]) {
          assert r[j] in rest;
          var k :| 0 <= k < |s[1..]| && s[1..][k] == r[j];
          assert s[k + 1] == r[j];
        }
      }
    }
  }

  /** The empty query matches every entry. */
  lemma EmptyQueryKeepsAll(s: seq<Entry>)
    ensures Filter(s, "") == s
  {
    if s != [] {
      assert OccursAt(Lower(s[0].title), "", 0);
      EmptyQueryKeepsAll(s[1..]);
    }
  }

  // ---------------------------------------------------------------------------
  // Pages
  // ---------------------------------------------------------------------------

  /**
   * `filteredFiles.slice(10 * page, 10 * page + 10)` (ConversionHistory.jsx:238-240):
   * at most ten consecutive entries starting at index 10 * page, none past the end.
   */
  function PageItems(s: seq<Entry>, page: nat): (r: seq<Entry>)
    ensures |r| <= PageSize
    ensures PageSize * page >= |s| ==> r == []
    ensures PageSize * page < |s| ==> |r| == if |s| - PageSize * page < PageSize then |s| - PageSize * page else PageSize
    ensures forall k :: 0 <= k < |r| ==> r[k] == s[PageSize * page + k]
  {
    var first := page * PageSize;
    var last := first + PageSize;
    if first >= |s| then [] else s[first..if last < |s| then last else |s|]
  }

  /** A page of a sorted list is sorted. */
  lemma PageKeepsSorted(s: seq<Entry>, page: nat, c: Criterion, ascending: bool)
    requires Sorted(s, c, ascending)
    ensures Sorted(PageItems(s, page), c, ascending)
  {
    var r := PageItems(s, page);
    forall i, j | 0 <= i < j < |r| ensures Precedes(c, ascending, r[i], r[j]) {
      assert r[i] == s[PageSize * page + i] && r[j] == s[PageSize * page + j];
    }
  }

  /** `Math.ceil(n / 10)`. */
  function PageCount(n: nat): (r: nat)
    ensures PageSize * r >= n
    ensures r > 0 ==> PageSize * (r - 1) < n
  {
    (n + PageSize - 1) / PageSize
  }

  /** Entry `i` is shown on page i / 10, at row i % 10, and that page is counted. */
  lemma PageOfIndex(s: seq<Entry>, i: nat)
    requires i < |s|
    ensures i / PageSize < PageCount(|s|)
    ensures i % PageSize < |PageItems(s, i / PageSize)|
    ensures PageItems(s, i / PageSize)[i % PageSize] == s[i]
  {
    var p := i / PageSize;
    assert PageSize * p + i % PageSize == i;
  }

  /** Thirteen entries make two pages: ten rows, then three. */
  lemma ThirteenEntriesTwoPages(s: seq<Entry>)
    requires |s| == 13
    ensures PageCount(|s|) == 2
    ensures PageItems(s, 0) == s[..10] && PageItems(s, 1) == s[10..]
    ensures |PageItems(s, 0)| == 10 && |PageItems(s, 1)| == 3
  {
  }

  /**
   * The page count is taken from the unfiltered list
   * (ConversionHistory.jsx:328), so the pages past the filtered entries are
   * offered and show nothing.
   */
  lemma EmptyPagesAfterFilter(s: seq<Entry>, query: string, page: nat)
    requires PageCount(|Filter(s, query)|) <= page < PageCount(|s|)
    ensures PageItems(Filter(s, query), page) == []
  {
  }

  // ---------------------------------------------------------------------------
  // Sort state
  // ---------------------------------------------------------------------------

  datatype SortState = SortState(criterion: Criterion, ascending: bool)

  /**
   * `handleSort` (ConversionHistory.jsx:248-255): the active criterion flips
   * direction; another one becomes active, ascending.
   */
  function SortAfterClick(st: SortState, c: Criterion): (r: SortState)
    ensures r.criterion == c
    ensures c == st.criterion ==> r.ascending == !st.ascending
    ensures c != st.criterion ==> r.ascending
  {
    if st.criterion == c then st.(ascending := !st.ascending) else SortState(c, true)
  }

  /** Clicking the same header twice restores the order it started with. */
  lemma ClickSameTwice(st: SortState)
    ensures SortAfterClick(SortAfterClick(st, st.criterion), st.criterion) == st
  {
  }

  /**
   * `getSortingIndicator` (ConversionHistory.jsx:263-268): a triangle on the
   * active criterion only, up when ascending, down when descending.
   */
  function Indicator(st: SortState, column: Criterion): (r: string)
    ensures r == AscendingIndicator <==> column == st.criterion && st.ascending
    ensures r == DescendingIndicator <==> column == st.criterion && !st.ascending
    ensures r == "" <==> column != st.criterion
  {
    if st.criterion == column then (if st.ascending then AscendingIndicator else DescendingIndicator) else ""
  }

  /** What one render shows. */
  datatype HistoryPage = HistoryPage(items: seq<Entry>, pageCount: nat, indicators: map<Header, string>)

  // ---------------------------------------------------------------------------
  // The component
  // ---------------------------------------------------------------------------

  class HistoryView {
    var convertedFiles: seq<Entry>
    var currentPage: nat
    var sortingCriteria: Criterion
    var isAscending: bool
    var searchQuery: string

    /** Initial state (ConversionHistory.jsx:116-122): no entries, page 0, title, ascending, no query. */
    constructor ()
      ensures convertedFiles == [] && currentPage == 0 && sortingCriteria == ByTitle && isAscending
      ensures searchQuery == ""
    {
      convertedFiles := [];
      currentPage := 0;
      sortingCriteria := ByTitle;
      isAscending := true;
      searchQuery := "";
    }

    /** The list arrives from GET /api/v1/midis (or the debug sample) and replaces the state. */
    method HandleLoaded(data: seq<Entry>)
      modifies this
      ensures convertedFiles == data
      ensures currentPage == old(currentPage) && sortingCriteria == old(sortingCriteria)
      ensures isAscending == old(isAscending) && searchQuery == old(searchQuery)
    {
      convertedFiles := data;
    }

    /** `handleSort`. */
    method HandleSort(c: Criterion)
      modifies this
      ensures SortState(sortingCriteria, isAscending) == SortAfterClick(old(SortState(sortingCriteria, isAscending)), c)
      ensures convertedFiles == old(convertedFiles) && currentPage == old(currentPage)
      ensures searchQuery == old(searchQuery)
    {
      if sortingCriteria == c {
        isAscending := !isAscending;
      } else {
        sortingCriteria := c;
        isAscending := true;
      }
    }

    /** A click on a column header. */
    method ClickHeader(h: Header)
      modifies this
      ensures SortState(sortingCriteria, isAscending) ==
        SortAfterClick(old(SortState(sortingCriteria, isAscending)), HeaderCriterion(h))
      ensures convertedFiles == old(convertedFiles) && currentPage == old(currentPage)
      ensures searchQuery == old(searchQuery)
    {
      HandleSort(HeaderCriterion(h));
    }

    /** `handleSearchChange`: the typed text, lower-cased. */
    method HandleSearchChange(value: string)
      modifies this
      ensures searchQuery == Lower(value)
      ensures convertedFiles == old(convertedFiles) && currentPage == old(currentPage)
      ensures sortingCriteria == old(sortingCriteria) && isAscending == old(isAscending)
    {
      searchQuery := Lower(value);
    }

    /** `changePage`, called by the paginator with the selected page. */
    method ChangePage(selected: nat)
      modifies this
      ensures currentPage == selected
      ensures convertedFiles == old(convertedFiles) && searchQuery == old(searchQuery)
      ensures sortingCriteria == old(sortingCriteria) && isAscending == old(isAscending)
    {
      currentPage := selected;
    }

    /**
     * One render: the state list is sorted in place, then filtered and
     * sliced to the current page; the paginator gets the unfiltered count.
     */
    method Render() returns (view: HistoryPage)
      modifies this
      ensures convertedFiles == Sort(old(convertedFiles), sortingCriteria, isAscending)
      ensures multiset(convertedFiles) == multiset(old(convertedFiles))
      ensures currentPage == old(currentPage) && searchQuery == old(searchQuery)
      ensures sortingCriteria == old(sortingCriteria) && isAscending == old(isAscending)
      ensures view.items == PageItems(Filter(convertedFiles, searchQuery), currentPage)
      ensures Sorted(view.items, sortingCriteria, isAscending)
      ensures view.pageCount == PageCount(|convertedFiles|)
      ensures forall h: Header :: h in view.indicators
      ensures forall h :: h in view.indicators ==>
        view.indicators[h] == Indicator(SortState(sortingCriteria, isAscending), HeaderCriterion(h))
    {
      convertedFiles := Sort(convertedFiles, sortingCriteria, isAscending);
      var filteredFiles := Filter(convertedFiles, searchQuery);
      FilterKeepsSorted(convertedFiles, searchQuery, sortingCriteria, isAscending);
      PageKeepsSorted(filteredFiles, currentPage, sortingCriteria, isAscending);
      var st := SortState(sortingCriteria, isAscending);
      var indicators := map[FileHeader := Indicator(st, ByTitle), NameHeader := Indicator(st, ByName),
                            EmailHeader := Indicator(st, ByDate), DateHeader := Indicator(st, ByEmail)];
      forall h: Header ensures h in indicators && indicators[h] == Indicator(st, HeaderCriterion(h)) {
        match h
        case FileHeader =>
        case NameHeader =>
        case EmailHeader =>
        case DateHeader =>
      }
      view := HistoryPage(PageItems(filteredFiles, currentPage), PageCount(|convertedFiles|), indicators);
    }
  }
}
