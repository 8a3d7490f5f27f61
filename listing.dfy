/**
 * The listing component: query state (filename filter, size filter, page),
 * the result of the last list request, the two-step delete confirmation and
 * the two effects that decide when the list is fetched again.
 *
 * Every HTTP call is replaced by an outcome passed in by the caller, and every
 * request the component issues is appended to the ghost log `requests`.
 */
module Listing {
  import opened Common

  /** Page size sent with every list request. */
  const PageLimit: nat := 7
  const FetchErrorMessage := "Error fetching files. Please try again later."
  const DeletedMessage := "File deleted successfully"
  const DeleteErrorMessage := "Error deleting file"

  /** The three choices of the size filter, in megabytes. */
  datatype SizeFilter = UpTo1MB | UpTo5MB | UpTo10MB {
    function Megabytes(): (mb: nat)
      ensures mb in {1, 5, 10}
    {
      match this
      case UpTo1MB => 1
      case UpTo5MB => 5
      case UpTo10MB => 10
    }
  }

  /** One row of the listing as the server reports it. */
  datatype FileRecord = FileRecord(filename: string, sizeMB: real, uploadedAt: int)

  /** The values the first effect depends on. */
  datatype Query = Query(filename: string, size: SizeFilter, page: int)

  /** A request sent to the file service. */
  datatype Request =
    | ListFiles(filename: string, size: nat, page: int, limit: nat)
    | DeleteFile(filename: string)

  /** How a list request ended: the response body, or a thrown error. */
  datatype FetchOutcome =
    | Fetched(files: seq<FileRecord>, totalFiles: int, totalPages: int)
    | FetchFailed

  /** The statuses axios resolves with; every other status makes the request throw. */
  type SuccessStatus = s: int | 200 <= s < 300 witness 200

  /** How a delete request ended: a 2xx response with its status, or a thrown error. */
  datatype DeleteOutcome = Responded(status: SuccessStatus) | DeleteThrew

  /** The component's state fields, as a value. */
  datatype ListingState = ListingState(
    files: seq<FileRecord>,
    filename: string,
    size: SizeFilter,
    currentPage: int,
    totalFiles: int,
    totalPages: int,
    loading: bool,
    error: string,
    deleting: Option<string>,
    confirmDelete: Option<string>)

  /** The list request issued for a query: the size filter is sent as its number of megabytes. */
  function ListRequest(q: Query): Request {
    ListFiles(q.filename, q.size.Megabytes(), q.page, PageLimit)
  }

  /** Distinct queries send distinct requests: the request sent determines the query. */
  lemma ListRequestDeterminesQuery(q: Query, q': Query)
    requires ListRequest(q) == ListRequest(q')
    ensures q == q'
  {
    match q.size
    case UpTo1MB => assert q'.size.Megabytes() == 1;
    case UpTo5MB => assert q'.size.Megabytes() == 5;
    case UpTo10MB => assert q'.size.Megabytes() == 10;
  }

  /**
   * The state once a list request has ended with outcome `o`: a response
   * replaces the rows and both totals, a failure keeps them and sets the
   * error; the query and the delete state are not touched.
   */
  function AfterFetch(s: ListingState, o: FetchOutcome): (r: ListingState)
    ensures !r.loading
    ensures o.Fetched? ==>
      r.files == o.files && r.totalFiles == o.totalFiles && r.totalPages == o.totalPages && r.error == ""
    ensures o.FetchFailed? ==>
      r.files == s.files && r.totalFiles == s.totalFiles && r.totalPages == s.totalPages
      && r.error == FetchErrorMessage
    ensures r.filename == s.filename && r.size == s.size && r.currentPage == s.currentPage
    ensures r.deleting == s.deleting && r.confirmDelete == s.confirmDelete
  {
    match o
    case Fetched(rows, count, pages) =>
      s.(files := rows, totalFiles := count, totalPages := pages, loading := false, error := "")
    case FetchFailed =>
      s.(loading := false, error := FetchErrorMessage)
  }

  // ---------------------------------------------------------------------------
  // Pagination buttons

  datatype PageButton = Prev | Next

  /** Prev is disabled exactly on page 1. */
  predicate PrevDisabled(currentPage: int) {
    currentPage == 1
  }

  /** Next is disabled exactly when the current page equals the reported page count. */
  predicate NextDisabled(currentPage: int, totalPages: int) {
    currentPage == totalPages
  }

  /** The page after pressing `b`; a disabled button delivers no click. */
  function Press(currentPage: int, totalPages: int, b: PageButton): (p: int)
    ensures b == Prev ==> (p == currentPage <==> PrevDisabled(currentPage))
    ensures b == Prev && !PrevDisabled(currentPage) ==> p == currentPage - 1
    ensures b == Next ==> (p == currentPage <==> NextDisabled(currentPage, totalPages))
    ensures b == Next && !NextDisabled(currentPage, totalPages) ==> p == currentPage + 1
  {
    match b
    case Prev => if PrevDisabled(currentPage) then currentPage else currentPage - 1
    case Next => if NextDisabled(currentPage, totalPages) then currentPage else currentPage + 1
  }

  /** The page after pressing the buttons of `bs` in order, the totals staying fixed. */
  function PressAll(currentPage: int, totalPages: int, bs: seq<PageButton>): int
    decreases |bs|
  {
    if bs == [] then currentPage else PressAll(Press(currentPage, totalPages, bs[0]), totalPages, bs[1..])
  }

  /** While the totals stay fixed, Prev and Next keep a valid page within 1..totalPages. */
  lemma {:induction false} PressAllStaysInRange(currentPage: int, totalPages: int, bs: seq<PageButton>)
    requires 1 <= currentPage <= totalPages
    ensures 1 <= PressAll(currentPage, totalPages, bs) <= totalPages
    decreases |bs|
  {
    if bs != [] {
      PressAllStaysInRange(Press(currentPage, totalPages, bs[0]), totalPages, bs[1..]);
    }
  }

  /** A run of `n` presses of Next. */
  function NextPresses(n: nat): (bs: seq<PageButton>)
    ensures |bs| == n && forall i :: 0 <= i < n ==> bs[i] == Next
  {
    if n == 0 then [] else [Next] + NextPresses(n - 1)
  }

  /**
   * When the server reports no pages (`totalPages == 0`), Next is never
   * disabled from page 1 upwards: `n` presses go to page `1 + n`, past every
   * page the server has.
   */
  lemma {:induction false} NextUnboundedWithoutPages(currentPage: int, n: nat)
    requires currentPage >= 1
    ensures PressAll(currentPage, 0, NextPresses(n)) == currentPage + n
    decreases n
  {
    if n > 0 {
      assert NextPresses(n)[1..] == NextPresses(n - 1);
      NextUnboundedWithoutPages(currentPage + 1, n - 1);
    }
  }

  // ---------------------------------------------------------------------------
  // The two effects

  /**
   * The first effect runs on mount (`previous == None`) and after every render
   * in which filename, size or currentPage differs from its last run; each run
   * fetches.
   */
  predicate QueryEffectFetches(previous: Option<Query>, current: Query) {
    previous != Some(current)
  }

  /**
   * The second effect runs on mount and whenever the reload prop differs from
   * its last run, but fetches only when the new value is truthy.
   */
  predicate ReloadEffectFetches(previous: Option<bool>, current: bool) {
    previous != Some(current) && current
  }

  /** The number of fetches the second effect issues as the prop takes the values of `history`. */
  function ReloadFetchCount(previous: Option<bool>, history: seq<bool>): (count: nat)
    ensures count <= |history|
    ensures !(true in history) ==> count == 0
    decreases |history|
  {
    if history == [] then 0
    else (if ReloadEffectFetches(previous, history[0]) then 1 else 0)
         + ReloadFetchCount(Some(history[0]), history[1..])
  }

  /** Once the value is true it stays true. */
  ghost predicate NeverFalseAgain(history: seq<bool>) {
    forall i, j :: 0 <= i < j < |history| && history[i] ==> history[j]
  }

  /**
   * If the reload prop never goes back to false once true, the second effect
   * fetches exactly once if the prop is ever true and never otherwise.
   */
  lemma {:induction false} ReloadFetchesOnce(previous: Option<bool>, history: seq<bool>)
    requires previous != Some(true)
    requires NeverFalseAgain(history)
    ensures ReloadFetchCount(previous, history) == if true in history then 1 else 0
    decreases |history|
  {
    if history != [] {
      var rest := history[1..];
      assert NeverFalseAgain(rest) by {
        forall i, j | 0 <= i < j < |rest| && rest[i] ensures rest[j] {
          assert history[i + 1] && i + 1 < j + 1;
        }
      }
      if history[0] {
        assert forall k :: 0 <= k < |rest| ==> rest[k] by {
          forall k | 0 <= k < |rest| ensures rest[k] { assert history[0] && 0 < k + 1; }
        }
        AllTrueFetchesNothing(rest);
      } else {
        ReloadFetchesOnce(Some(false), rest);
        assert (true in history) == (true in rest);
      }
    }
  }

  /** Once the effect has seen true, a prop that stays true fetches no more. */
  lemma {:induction false} AllTrueFetchesNothing(history: seq<bool>)
    requires forall k :: 0 <= k < |history| ==> history[k]
    ensures ReloadFetchCount(Some(true), history) == 0
    decreases |history|
  {
    if history != [] {
      assert history[0];
      AllTrueFetchesNothing(history[1..]);
    }
  }

  /** A reload prop that toggles back and forth would fetch on every change to true. */
  lemma TogglingReloadFetchesEachTime()
    ensures ReloadFetchCount(None, [false, true, false, true]) == 2
  {
    assert [false, true, false, true][1..] == [true, false, true];
    assert [true, false, true][1..] == [false, true];
    assert [false, true][1..] == [true];
  }

  // ---------------------------------------------------------------------------
  // The component

  class FileListing {
    var files: seq<FileRecord>
    var filename: string
    var size: SizeFilter
    var currentPage: int
    var totalFiles: int
    var totalPages: int
    var loading: bool
    var error: string
    var deleting: Option<string>
    var confirmDelete: Option<string>
    /** Notifications handed to the toast library, oldest first. */
    var toasts: seq<Toast>
    /** The dependencies each effect saw when it last ran; `None` before mount. */
    var queryDeps: Option<Query>
    var reloadDeps: Option<bool>
    /** Every request issued, oldest first. */
    ghost var requests: seq<Request>

    function State(): ListingState
      reads this
    {
      ListingState(files, filename, size, currentPage, totalFiles, totalPages,
                   loading, error, deleting, confirmDelete)
    }

    function CurrentQuery(): Query
      reads this
    {
      Query(filename, size, currentPage)
    }

    /** The pagination row is rendered only when the table is (no spinner, no error). */
    predicate PaginationShown()
      reads this
    {
      !loading && error == ""
    }

    /** The state before the first render. */
    constructor ()
      ensures State() == ListingState([], "", UpTo10MB, 1, 0, 0, false, "", None, None)
      ensures queryDeps == None && reloadDeps == None
      ensures toasts == [] && requests == []
    {
      files, filename, size, currentPage := [], "", UpTo10MB, 1;
      totalFiles, totalPages, loading, error := 0, 0, false, "";
      deleting, confirmDelete := None, None;
      toasts, queryDeps, reloadDeps := [], None, None;
      requests := [];
    }

    /** Issues one list request for the current query; its outcome is `outcome`. */
    method FetchFiles(outcome: FetchOutcome)
      modifies this
      ensures requests == old(requests) + [ListRequest(old(CurrentQuery()))]
      ensures State() == AfterFetch(old(State()), outcome)
      ensures toasts == old(toasts) && queryDeps == old(queryDeps) && reloadDeps == old(reloadDeps)
    {
      loading := true;
      error := "";
      requests := requests + [ListRequest(CurrentQuery())];
      match outcome {
        case Fetched(rows, count, pages) =>
          files := rows;
          totalFiles := count;
          totalPages := pages;
        case FetchFailed =>
          error := FetchErrorMessage;
      }
      loading := false;
    }

    /** Typing in the search box: new filter, back to page 1. */
    method HandleSearchChange(value: string)
      modifies this
      ensures State() == old(State()).(filename := value, currentPage := 1)
      ensures requests == old(requests) && toasts == old(toasts)
      ensures queryDeps == old(queryDeps) && reloadDeps == old(reloadDeps)
    {
      filename := value;
      currentPage := 1;
    }

    /** Choosing a size filter: new filter, back to page 1. */
    method HandleSizeChange(value: SizeFilter)
      modifies this
      ensures State() == old(State()).(size := value, currentPage := 1)
      ensures requests == old(requests) && toasts == old(toasts)
      ensures queryDeps == old(queryDeps) && reloadDeps == old(reloadDeps)
    {
      size := value;
      currentPage := 1;
    }

    /** The Clear Search button: empties the filter and keeps the current page. */
    method ClearSearch()
      modifies this
      ensures State() == old(State()).(filename := "")
      ensures requests == old(requests) && toasts == old(toasts)
      ensures queryDeps == old(queryDeps) && reloadDeps == old(reloadDeps)
    {
      filename := "";
    }

    /** Moves to page `page` as given, with no clamping. */
    method HandlePageChange(page: int)
      modifies this
      ensures State() == old(State()).(currentPage := page)
      ensures requests == old(requests) && toasts == old(toasts)
      ensures queryDeps == old(queryDeps) && reloadDeps == old(reloadDeps)
    {
      currentPage := page;
    }

    /** A press of Prev or Next, which reaches the handler only when the button is shown and enabled. */
    method PressButton(b: PageButton)
      modifies this
      ensures PaginationShown() == old(PaginationShown())
      ensures old(PaginationShown()) ==>
        State() == old(State()).(currentPage := Press(old(currentPage), old(totalPages), b))
      ensures !old(PaginationShown()) ==> State() == old(State())
      ensures requests == old(requests) && toasts == old(toasts)
      ensures queryDeps == old(queryDeps) && reloadDeps == old(reloadDeps)
    {
      if PaginationShown() {
        match b
        case Prev =>
          if !PrevDisabled(currentPage) { HandlePageChange(currentPage - 1); }
        case Next =>
          if !NextDisabled(currentPage, totalPages) { HandlePageChange(currentPage + 1); }
      }
    }

    /** The Delete button of a row: that filename is now the one awaiting confirmation. */
    method HandleDeleteConfirmation(name: string)
      modifies this
      ensures State() == old(State()).(confirmDelete := Some(name))
      ensures requests == old(requests) && toasts == old(toasts)
      ensures queryDeps == old(queryDeps) && reloadDeps == old(reloadDeps)
    {
      confirmDelete := Some(name);
    }

    /** The Cancel button: no filename awaits confirmation. */
    method CancelDelete()
      modifies this
      ensures State() == old(State()).(confirmDelete := None)
      ensures requests == old(requests) && toasts == old(toasts)
      ensures queryDeps == old(queryDeps) && reloadDeps == old(reloadDeps)
    {
      confirmDelete := None;
    }

    /**
     * The Confirm Delete button. The delete request ends with `outcome`; on
     * status 200 the list is fetched again and that fetch ends with `refetch`.
     */
    method HandleDelete(name: string, outcome: DeleteOutcome, refetch: FetchOutcome)
      modifies this
      ensures outcome == Responded(200) ==>
        requests == old(requests) + [DeleteFile(name), ListRequest(old(CurrentQuery()))]
        && State() == AfterFetch(old(State()), refetch).(confirmDelete := None, deleting := None)
        && toasts == old(toasts) + [ToastSuccess(DeletedMessage)]
      ensures outcome == DeleteThrew ==>
        requests == old(requests) + [DeleteFile(name)]
        && State() == old(State()).(deleting := None)
        && toasts == old(toasts) + [ToastError(DeleteErrorMessage)]
      ensures outcome.Responded? && outcome.status != 200 ==>
        requests == old(requests) + [DeleteFile(name)]
        && State() == old(State()).(deleting := Some(name))
        && toasts == old(toasts)
      ensures queryDeps == old(queryDeps) && reloadDeps == old(reloadDeps)
    {
      deleting := Some(name);
      requests := requests + [DeleteFile(name)];
      match outcome
      case Responded(status) =>
        if status == 200 {
          toasts := toasts + [ToastSuccess(DeletedMessage)];
          FetchFiles(refetch);
          confirmDelete := None;
          deleting := None;
        }
      case DeleteThrew =>
        toasts := toasts + [ToastError(DeleteErrorMessage)];
        deleting := None;
    }

    /**
     * The effects React runs after a render in which the reload prop is
     * `reloadFiles`: first the query effect, then the reload effect. A fetch
     * the first one issues ends with `queryOutcome`, one the second issues
     * with `reloadOutcome`.
     */
    method RunEffects(reloadFiles: bool, queryOutcome: FetchOutcome, reloadOutcome: FetchOutcome)
      modifies this
      ensures queryDeps == Some(old(CurrentQuery())) && reloadDeps == Some(reloadFiles)
      ensures requests == old(requests)
        + (if QueryEffectFetches(old(queryDeps), old(CurrentQuery())) then [ListRequest(old(CurrentQuery()))] else [])
        + (if ReloadEffectFetches(old(reloadDeps), reloadFiles) then [ListRequest(old(CurrentQuery()))] else [])
      ensures
        var afterQuery :=
          if QueryEffectFetches(old(queryDeps), old(CurrentQuery())) then AfterFetch(old(State()), queryOutcome)
          else old(State());
        State() == if ReloadEffectFetches(old(reloadDeps), reloadFiles) then AfterFetch(afterQuery, reloadOutcome)
                   else afterQuery
      ensures toasts == old(toasts)
    {
      var query := CurrentQuery();
      if QueryEffectFetches(queryDeps, query) {
        queryDeps := Some(query);
        FetchFiles(queryOutcome);
      }
      if reloadDeps != Some(reloadFiles) {
        reloadDeps := Some(reloadFiles);
        if reloadFiles {
          FetchFiles(reloadOutcome);
        }
      }
    }
  }

  /**
   * Renders the listing with the reload prop taking the values of `history`
   * in turn, the query staying as it is; every fetch the reload effect issues
   * ends with `outcome`. It appends exactly `ReloadFetchCount` list requests,
   * each for the current query.
   */
  method ReplayReload(listing: FileListing, history: seq<bool>, outcome: FetchOutcome)
    requires listing.queryDeps == Some(listing.CurrentQuery())
    modifies listing
    ensures listing.queryDeps == Some(listing.CurrentQuery()) && listing.CurrentQuery() == old(listing.CurrentQuery())
    ensures |listing.requests| == |old(listing.requests)| + ReloadFetchCount(old(listing.reloadDeps), history)
    ensures listing.requests[..|old(listing.requests)|] == old(listing.requests)
    ensures forall k :: |old(listing.requests)| <= k < |listing.requests| ==>
      listing.requests[k] == ListRequest(old(listing.CurrentQuery()))
    decreases |history|
  {
    if history != [] {
      listing.RunEffects(history[0], FetchFailed, outcome);
      ReplayReload(listing, history[1..], outcome);
    }
  }
}
