/**
 * The session state of the terminal front end (`App`): the query being
 * typed, the results held, the page shown, the messages, and the pacing of
 * searches.
 *
 * Each state-changing operation is a method of the class `App` proved
 * equal to a function on `Session`, a snapshot of the fields; the lemmas
 * state what those functions keep and change. The engine search is a
 * parameter: a function from engine, query and offset to a batch of
 * results or an error. Time is a parameter in nanoseconds.
 */
module Application {
  import opened Prelude
  import opened Models
  import opened Errors
  import opened Engine

  /** The engine search as the session sees it. */
  type SearchFn = (SearchEngine, string, u16) -> Result<seq<SearchResult>, SearchError>

  /** Every batch `search` returns holds distinct urls, as `Engine.Search` guarantees of its results. */
  ghost predicate SoundSearch(search: SearchFn) {
    forall e: SearchEngine, q: string, s: u16 :: search(e, q, s).Ok? ==> DistinctUrls(search(e, q, s).value)
  }

  const WaitMessage := "Please wait a moment before searching again"
  const NoMoreResultsMessage := "No more results found"
  const SearchFailedPrefix := "Search failed: "
  const NextSearchFailedPrefix := "Next search failed: "

  const I32Min: int := -0x8000_0000
  const I32Max: int := 0x7FFF_FFFF

  /** A `usize` cast to `i32` with `as`: the low 32 bits, read as two's complement. */
  function AsI32(n: nat): (r: i32)
    ensures r <= n
    ensures n <= I32Max ==> r == n
  {
    (n + 0x8000_0000) % 0x1_0000_0000 - 0x8000_0000
  }

  /** `Instant::elapsed`: the time since `since`, zero if the clock reads earlier. */
  function Elapsed(now: nat, since: nat): nat {
    if now >= since then now - since else 0
  }

  /** The number of pages for `len` results: one for none, otherwise ceil(len / 10). */
  function PageCount(len: nat): (n: nat)
    ensures len == 0 ==> n == 1
    ensures len > 0 ==> n >= 1 && (n - 1) * ItemsPerPage < len <= n * ItemsPerPage
  {
    if len == 0 then 1 else (len + ItemsPerPage - 1) / ItemsPerPage
  }

  /** Holding more results never means fewer pages. */
  lemma PageCountMonotone(a: nat, b: nat)
    requires a <= b
    ensures PageCount(a) <= PageCount(b)
  {
  }

  /** The fields of `App` as one value. */
  datatype Session = Session(
    input: string,
    results: seq<SearchResult>,
    selectedIndex: nat,
    inputMode: bool,
    errorMessage: Option<string>,
    warningMessage: Option<string>,
    scrollOffset: nat,
    page: nat,
    totalPages: nat,
    lastSearch: Option<nat>,
    isLoading: bool,
    engine: SearchEngine,
    listSelection: Option<nat>,   // the row selected in the result list widget
    start: u16)

  /**
   * The paging invariant: with no results the page is 0 and the count at
   * most 1; otherwise the count is ceil(len / 10) and the page below it.
   */
  predicate Paged(s: Session) {
    if s.results == [] then s.page == 0 && s.totalPages <= 1
    else s.totalPages == PageCount(|s.results|) && s.page < s.totalPages
  }

  /** `App::new`, with the engine chosen from the configured name. */
  function Initial(favor: string): (s: Session)
    ensures Paged(s) && s.results == [] && s.inputMode && s.engine == Favor(favor) && s.start == 0
  {
    Session([], [], 0, true, None, None, 0, 0, 0, None, false, Favor(favor), Some(0), 0)
  }

  /**
   * `current_page_range`: the indices of the results on the current page,
   * the last page running to the end of the results.
   */
  function PageRange(s: Session): (range: (nat, nat))
    requires s.results != [] ==> s.totalPages > 0
  {
    if s.results == [] then (0, 0)
    else
      var first := s.page * ItemsPerPage;
      (first, if s.page == s.totalPages - 1 then |s.results| else first + ItemsPerPage)
  }

  /** Under the paging invariant the current page is a non-empty run of at most ten results. */
  lemma PageRangeBounds(s: Session)
    requires Paged(s) && s.results != []
    ensures var (first, end) := PageRange(s);
      && first == s.page * ItemsPerPage
      && first < end <= |s.results|
      && end - first <= ItemsPerPage
      && (s.page < s.totalPages - 1 ==> end - first == ItemsPerPage)
  {
    var n := PageCount(|s.results|);
    assert s.page * ItemsPerPage <= (n - 1) * ItemsPerPage;
  }

  /** Every result is on exactly the page its index divided by ten names. */
  lemma EveryResultOnItsPage(s: Session, k: nat)
    requires Paged(s) && k < |s.results|
    ensures k / ItemsPerPage < s.totalPages
    ensures PageRange(s.(page := k / ItemsPerPage)).0 <= k < PageRange(s.(page := k / ItemsPerPage)).1
  {
    var p := k / ItemsPerPage;
    var n := PageCount(|s.results|);
    assert p * ItemsPerPage <= k < (p + 1) * ItemsPerPage;
    PageRangeBounds(s.(page := p));
  }

  /** `total_pages()`: the page count recomputed from the results. */
  function Paginated(s: Session): Session {
    s.(totalPages := PageCount(|s.results|))
  }

  /** The list half of `clear_results`: no results, page 0 of 0, the first row selected, scrolled to the top. */
  function Unlisted(s: Session): Session {
    s.(results := [], selectedIndex := 0, page := 0, totalPages := 0, scrollOffset := 0, listSelection := Some(0))
  }

  /** The prompt half of `clear_results`: no messages, an empty query being typed, offset 0. */
  function Reprompted(s: Session): Session {
    s.(errorMessage := None, warningMessage := None, input := [], inputMode := true, start := 0)
  }

  /** `clear_results`. */
  function Cleared(s: Session): Session {
    Reprompted(Unlisted(s))
  }

  /** Clearing is a full reset of everything but the engine, the pacing and the loading flag. */
  lemma ClearedIsReset(s: Session)
    ensures Paged(Cleared(s))
    ensures Cleared(s) == Initial("google").(engine := s.engine, lastSearch := s.lastSearch, isLoading := s.isLoading)
  {
  }

  /** The results of `batch` whose url is not among those of `held`, in batch order. */
  function Unseen(held: seq<SearchResult>, batch: seq<SearchResult>): seq<SearchResult>
    decreases |batch|
  {
    if batch == [] then []
    else (if batch[0].url in UrlSet(held) then [] else [batch[0]]) + Unseen(held, batch[1..])
  }

  /** A batch result is new exactly when its url is not held. */
  lemma {:induction false} UnseenMembers(held: seq<SearchResult>, batch: seq<SearchResult>)
    ensures forall r :: r in Unseen(held, batch) <==> r in batch && r.url !in UrlSet(held)
    ensures UrlSet(Unseen(held, batch)) == UrlSet(batch) - UrlSet(held)
    ensures Subsequence(Unseen(held, batch), batch)
    decreases |batch|
  {
    if batch != [] {
      var head := if batch[0].url in UrlSet(held) then [] else [batch[0]];
      var tail := Unseen(held, batch[1..]);
      UnseenMembers(held, batch[1..]);
      assert batch == [batch[0]] + batch[1..];
      UrlSetAppend([batch[0]], batch[1..]);
      UrlSetAppend(head, tail);
      if head == [] {
        assert head + tail == tail;
        SubsequenceSkip(tail, batch);
      } else {
        assert (head + tail)[0] == batch[0] && (head + tail)[1..] == tail;
      }
    }
  }

  /** Nothing is new exactly when every url of the batch is already held. */
  lemma UnseenEmpty(held: seq<SearchResult>, batch: seq<SearchResult>)
    ensures Unseen(held, batch) == [] <==> UrlSet(batch) <= UrlSet(held)
  {
    UnseenMembers(held, batch);
    if Unseen(held, batch) != [] {
      assert Unseen(held, batch)[0] in Unseen(held, batch);
    }
  }

  /** The new results of a batch with distinct urls have distinct urls. */
  lemma {:induction false} UnseenDistinct(held: seq<SearchResult>, batch: seq<SearchResult>)
    requires DistinctUrls(batch)
    ensures DistinctUrls(Unseen(held, batch))
    decreases |batch|
  {
    if batch != [] {
      UnseenDistinct(held, batch[1..]);
      UnseenMembers(held, batch[1..]);
      var tail := Unseen(held, batch[1..]);
      if batch[0].url !in UrlSet(held) {
        assert Unseen(held, batch) == [batch[0]] + tail;
        forall j | 0 <= j < |tail| ensures tail[j].url != batch[0].url {
          assert tail[j] in batch[1..];
          var m :| 0 <= m < |batch[1..]| && batch[1..][m] == tail[j];
          assert batch[m + 1] == tail[j];
        }
      }
    }
  }

  /** Results with distinct urls, followed by results with distinct urls none of them holds, have distinct urls. */
  lemma AppendDistinct(held: seq<SearchResult>, more: seq<SearchResult>)
    requires DistinctUrls(held) && DistinctUrls(more) && UrlSet(held) !! UrlSet(more)
    ensures DistinctUrls(held + more)
  {
    forall i, j | 0 <= i < j < |held + more| ensures (held + more)[i].url != (held + more)[j].url {
      if j < |held| {
        assert (held + more)[i] == held[i] && (held + more)[j] == held[j];
      } else if i >= |held| {
        assert (held + more)[i] == more[i - |held|] && (held + more)[j] == more[j - |held|];
      } else {
        assert (held + more)[j] == more[j - |held|] && more[j - |held|].url in UrlSet(more);
        assert (held + more)[i] == held[i] && held[i].url in UrlSet(held);
      }
    }
  }

  /**
   * Appending the new results of a batch keeps the held ones in front, adds
   * the urls of the batch and no other, and keeps urls distinct.
   */
  lemma MergeSpec(held: seq<SearchResult>, batch: seq<SearchResult>)
    ensures var merged := held + Unseen(held, batch);
      && |held| <= |merged| && merged[..|held|] == held
      && UrlSet(merged) == UrlSet(held) + UrlSet(batch)
      && (DistinctUrls(held) && DistinctUrls(batch) ==> DistinctUrls(merged))
  {
    var merged := held + Unseen(held, batch);
    UnseenMembers(held, batch);
    UrlSetAppend(held, Unseen(held, batch));
    if DistinctUrls(held) && DistinctUrls(batch) {
      UnseenDistinct(held, batch);
      AppendDistinct(held, Unseen(held, batch));
    }
    assert merged[..|held|] == held;
  }

  /** The first steps of `next_search`: both messages cleared, the offset advanced by ten, saturating at 65535. */
  function Advanced(s: Session): Session {
    s.(errorMessage := None, warningMessage := None, start := SaturatingAdd(s.start, 10))
  }

  /**
   * `next_search`: with a query, clear both messages, advance the offset by
   * ten (saturating at 65535), and search from there. New results are
   * appended and the page count recomputed; a batch with nothing new leaves
   * the results and gives a warning; a failure leaves the results and gives
   * an error.
   */
  function AfterNextSearch(s: Session, search: SearchFn): Session {
    if s.input == [] then s
    else
      var s1 := Advanced(s);
      match search(s1.engine, s1.input, s1.start)
      case Ok(batch) =>
        var novel := Unseen(s1.results, batch);
        if novel != [] then Paginated(s1.(results := s1.results + novel))
        else s1.(warningMessage := Some(NoMoreResultsMessage))
      case Err(e) => s1.(errorMessage := Some(NextSearchFailedPrefix + Message(e)))
  }

  /**
   * The guards: with an empty query neither search changes anything, and
   * without results a page change changes nothing.
   */
  lemma NothingToDo(s: Session, now: nat, finished: nat, direction: i32, search: SearchFn)
    ensures s.input == [] ==> AfterNextSearch(s, search) == s
    ensures s.input == [] ==> AfterPerformSearch(s, now, finished, search) == s
    ensures s.results == [] ==> AfterChangePage(s, direction, search) == s
  {
  }

  /** `next_search` keeps the paging invariant and never moves the page. */
  lemma NextSearchPaged(s: Session, search: SearchFn)
    requires Paged(s)
    ensures Paged(AfterNextSearch(s, search))
    ensures AfterNextSearch(s, search).page == s.page
  {
    var t := AfterNextSearch(s, search);
    PageCountMonotone(|s.results|, |t.results|);
  }

  /**
   * What `next_search` does to the results: the held ones stay in place and
   * in order, the urls become those held plus those of a successful batch,
   * and distinct urls stay distinct when the batch's are.
   */
  lemma NextSearchMerge(s: Session, search: SearchFn)
    ensures var t := AfterNextSearch(s, search);
      && |s.results| <= |t.results| && t.results[..|s.results|] == s.results
      && (s.input != [] && search(s.engine, s.input, SaturatingAdd(s.start, 10)).Ok? ==>
            UrlSet(t.results) == UrlSet(s.results) + UrlSet(search(s.engine, s.input, SaturatingAdd(s.start, 10)).value))
      && (s.input == [] || search(s.engine, s.input, SaturatingAdd(s.start, 10)).Err? ==> t.results == s.results)
      && (SoundSearch(search) && DistinctUrls(s.results) ==> DistinctUrls(t.results))
  {
    var outcome := search(s.engine, s.input, SaturatingAdd(s.start, 10));
    if s.input != [] && outcome.Ok? {
      MergeSpec(s.results, outcome.value);
    } else {
      assert s.results[..|s.results|] == s.results;
    }
  }

  /**
   * With a query, `next_search` always advances the offset by ten, capped at
   * 65535, whether or not the search succeeds, and reports exactly one of:
   * new results (no message), nothing new (a warning), a failure (an error).
   */
  lemma NextSearchOffset(s: Session, search: SearchFn)
    requires s.input != []
    ensures var t := AfterNextSearch(s, search);
      && t.start == (if s.start + 10 <= U16Max then s.start + 10 else U16Max)
      && s.start <= t.start
      && t.errorMessage == (match search(s.engine, s.input, t.start)
                             case Err(e) => Some(NextSearchFailedPrefix + Message(e))
                             case Ok(_) => None)
      && (t.warningMessage == Some(NoMoreResultsMessage) <==> search(s.engine, s.input, t.start).Ok? && t.results == s.results)
      && (t.errorMessage.None? && t.warningMessage.None? <==> |t.results| > |s.results|)
  {
    var t := AfterNextSearch(s, search);
    var outcome := search(s.engine, s.input, t.start);
    if outcome.Ok? {
      UnseenEmpty(s.results, outcome.value);
      if Unseen(s.results, outcome.value) != [] {
        assert |t.results| == |s.results| + |Unseen(s.results, outcome.value)|;
      }
    }
  }

  /** The last search began less than a second before `now`. */
  predicate TooSoon(s: Session, now: nat) {
    s.lastSearch.Some? && Elapsed(now, s.lastSearch.value) < RateLimitNanos
  }

  /** The first steps of a search that goes ahead: loading, no messages, offset 0. */
  function Begun(s: Session): Session {
    s.(isLoading := true, errorMessage := None, warningMessage := None, start := 0)
  }

  /** A new batch shown from its first row, on page 0, scrolled to the top. */
  function Showing(s: Session, batch: seq<SearchResult>): Session {
    s.(results := batch, selectedIndex := 0, page := 0, scrollOffset := 0, listSelection := Some(0))
  }

  /** The last steps of a search that went ahead: loading and query editing off, `finished` the last search time. */
  function Ended(s: Session, finished: nat): Session {
    s.(isLoading := false, inputMode := false, lastSearch := Some(finished))
  }

  /**
   * `perform_search`: with a query and outside the one-second gate, search
   * from offset 0; a success replaces the results and goes to page 0, a
   * failure sets the error and then clears the results. Either way loading
   * ends, query editing ends, and `finished` becomes the last search time.
   */
  function AfterPerformSearch(s: Session, now: nat, finished: nat, search: SearchFn): Session {
    if s.input == [] then s
    else if TooSoon(s, now) then s.(warningMessage := Some(WaitMessage))
    else
      var begun := Begun(s);
      var ended := match search(begun.engine, begun.input, begun.start)
        case Ok(batch) => Paginated(Showing(begun, batch))
        case Err(e) => Cleared(begun.(errorMessage := Some(SearchFailedPrefix + Message(e))));
      Ended(ended, finished)
  }

  /**
   * A search started within a second of the last one only sets the wait
   * warning; everything else, the results, offset, page and last search time
   * included, stays as it was.
   */
  lemma RateLimitGate(s: Session, now: nat, finished: nat, search: SearchFn)
    requires s.input != [] && TooSoon(s, now)
    ensures AfterPerformSearch(s, now, finished, search) == s.(warningMessage := Some(WaitMessage))
  {
  }

  /**
   * A search that goes ahead replaces everything search-related: on success
   * the results are exactly the batch, on page 0 of ceil(len / 10); on
   * failure nothing is held and the query is gone. Both end with offset 0,
   * loading and editing off, and the last search time set.
   */
  lemma PerformSearchOutcome(s: Session, now: nat, finished: nat, search: SearchFn)
    requires s.input != [] && !TooSoon(s, now)
    ensures var t := AfterPerformSearch(s, now, finished, search);
      var outcome := search(s.engine, s.input, 0);
      && t.start == 0 && !t.isLoading && !t.inputMode && t.lastSearch == Some(finished)
      && t.engine == s.engine && Paged(t) && t.page == 0 && t.warningMessage.None?
      && (outcome.Ok? ==> t.results == outcome.value && t.selectedIndex == 0 && t.input == s.input)
      && (outcome.Err? ==> t.results == [] && t.totalPages == 0 && t.input == [])
  {
  }

  /** `perform_search` keeps the paging invariant, and distinct urls when the search is sound. */
  lemma PerformSearchPaged(s: Session, now: nat, finished: nat, search: SearchFn)
    requires Paged(s)
    ensures Paged(AfterPerformSearch(s, now, finished, search))
    ensures SoundSearch(search) && DistinctUrls(s.results) ==>
      DistinctUrls(AfterPerformSearch(s, now, finished, search).results)
  {
  }

  /**
   * As written, a failed search shows no error: the message set from the
   * error is wiped by `clear_results` straight after.
   */
  lemma FailedSearchShowsNoError(s: Session, now: nat, finished: nat, search: SearchFn)
    requires s.input != [] && !TooSoon(s, now) && search(s.engine, s.input, 0).Err?
    ensures AfterPerformSearch(s, now, finished, search).errorMessage == None
  {
  }

  /**
   * `perform_search` with the failure reported: the same steps, with the
   * error message set after the results are cleared.
   */
  function AfterPerformSearchReported(s: Session, now: nat, finished: nat, search: SearchFn): Session {
    var t := AfterPerformSearch(s, now, finished, search);
    if s.input != [] && !TooSoon(s, now) && search(s.engine, s.input, 0).Err? then
      t.(errorMessage := Some(SearchFailedPrefix + Message(search(s.engine, s.input, 0).error)))
    else t
  }

  /**
   * The corrected search reports a failure with its error's text, shows no
   * error after a success, and otherwise does exactly what the search as
   * written does.
   */
  lemma ReportedSearchShowsError(s: Session, now: nat, finished: nat, search: SearchFn)
    requires Paged(s)
    ensures var t := AfterPerformSearchReported(s, now, finished, search);
      var outcome := search(s.engine, s.input, 0);
      && Paged(t)
      && (s.input != [] && !TooSoon(s, now) ==>
            (outcome.Err? ==> t.errorMessage == Some(SearchFailedPrefix + Message(outcome.error)))
            && (outcome.Ok? ==> t.errorMessage.None?))
      && t.(errorMessage := None) == AfterPerformSearch(s, now, finished, search).(errorMessage := None)
  {
  }

  /** The state after moving to page `p`: its first result selected, scrolled to the top. */
  function OnPage(s: Session, p: nat): Session {
    s.(page := p, selectedIndex := p * ItemsPerPage, scrollOffset := 0, listSelection := Some(0))
  }

  /**
   * `change_page(direction)`: nothing without results or when `page +
   * direction` overflows `i32`. A target inside the pages is moved to. A
   * target past the end in the forward direction first fetches more
   * results, then moves one page forward if there is now a page after the
   * current one. A negative target does nothing.
   */
  function AfterChangePage(s: Session, direction: i32, search: SearchFn): Session {
    if s.results == [] then s
    else
      var target := AsI32(s.page) + direction;
      if target < I32Min || I32Max < target then s
      else if 0 <= target < AsI32(s.totalPages) then OnPage(s, target)
      else if target >= 0 && direction > 0 then
        var t := AfterNextSearch(s, search);
        if t.page < t.totalPages - 1 then OnPage(t, t.page + 1) else t
      else s
  }

  /** `change_page` keeps the paging invariant. */
  lemma ChangePagePaged(s: Session, direction: i32, search: SearchFn)
    requires Paged(s)
    ensures Paged(AfterChangePage(s, direction, search))
  {
    NextSearchPaged(s, search);
  }

  /** `change_page` keeps urls distinct when the search is sound. */
  lemma ChangePageDistinct(s: Session, direction: i32, search: SearchFn)
    requires SoundSearch(search) && DistinctUrls(s.results)
    ensures DistinctUrls(AfterChangePage(s, direction, search).results)
  {
    NextSearchMerge(s, search);
  }

  /**
   * Where `change_page` lands: on the target page when it exists. A target
   * past the end in the forward direction runs `next_search` and then moves
   * one page forward exactly when the page count after the fetch has a page
   * beyond the current one. A negative target, or one beyond `i32`, changes
   * nothing.
   */
  lemma ChangePageTarget(s: Session, direction: i32, search: SearchFn)
    requires Paged(s) && s.results != [] && s.totalPages <= I32Max
    ensures var t := AfterChangePage(s, direction, search);
      && (0 <= s.page + direction < s.totalPages ==>
            t == OnPage(s, s.page + direction) && PageRange(t).0 == t.selectedIndex)
      && (s.totalPages <= s.page + direction <= I32Max && direction > 0 ==>
            var n := AfterNextSearch(s, search);
            && t.(page := n.page, selectedIndex := n.selectedIndex, scrollOffset := n.scrollOffset,
                  listSelection := n.listSelection) == n
            && (t.page == s.page + 1 <==> s.page + 1 < n.totalPages)
            && (t.page == s.page <==> n.totalPages <= s.page + 1)
            && t.results[..|s.results|] == s.results)
      && (s.page + direction < 0 || I32Max < s.page + direction ==> t == s)
  {
    NextSearchPaged(s, search);
    NextSearchMerge(s, search);
  }

  /** The application state. */
  class App {
    var input: string
    var results: seq<SearchResult>
    var selectedIndex: nat
    var inputMode: bool
    var errorMessage: Option<string>
    var warningMessage: Option<string>
    var scrollOffset: nat
    var page: nat
    var totalPages: nat
    var lastSearch: Option<nat>
    var isLoading: bool
    var engine: SearchEngine
    var listSelection: Option<nat>
    var start: u16

    function State(): Session
      reads this
    {
      Session(input, results, selectedIndex, inputMode, errorMessage, warningMessage, scrollOffset,
              page, totalPages, lastSearch, isLoading, engine, listSelection, start)
    }

    predicate Valid()
      reads this
    {
      Paged(State())
    }

    /** `App::new`, `favor` being the configured engine name. */
    constructor (favor: string)
      ensures State() == Initial(favor) && Valid()
    {
      input := [];
      results := [];
      selectedIndex := 0;
      inputMode := true;
      errorMessage := None;
      warningMessage := None;
      scrollOffset := 0;
      page := 0;
      totalPages := 0;
      lastSearch := None;
      isLoading := false;
      engine := Favor(favor);
      listSelection := Some(0);
      start := 0;
    }

    /** `total_pages()`. */
    method TotalPages()
      modifies this`totalPages
      ensures State() == Paginated(old(State()))
    {
      if results == [] {
        totalPages := 1;
      } else {
        totalPages := (|results| + ItemsPerPage - 1) / ItemsPerPage;
      }
    }

    /** `current_page_range()`. */
    function CurrentPageRange(): (range: (nat, nat))
      reads this
      requires results != [] ==> totalPages > 0
      ensures range == PageRange(State())
      ensures Valid() && results != [] ==> range.0 < range.1 <= |results| && range.1 - range.0 <= ItemsPerPage
    {
      if Valid() && results != [] then PageRangeBounds(State()); PageRange(State())
      else PageRange(State())
    }

    /** `clear_input()`. */
    method ClearInput()
      modifies this`input
      ensures State() == old(State()).(input := [])
    {
      input := [];
    }

    /** `clear_results()`. */
    method ClearResults()
      modifies this
      ensures State() == Cleared(old(State()))
    {
      ClearListing();
      ClearPrompt();
    }

    /** The list half of `clear_results()`. */
    method ClearListing()
      modifies this
      ensures State() == Unlisted(old(State()))
    {
      results, selectedIndex, page, totalPages, scrollOffset, listSelection := [], 0, 0, 0, 0, Some(0);
    }

    /** The prompt half of `clear_results()`. */
    method ClearPrompt()
      modifies this
      ensures State() == Reprompted(old(State()))
    {
      errorMessage, warningMessage, input, inputMode, start := None, None, [], true, 0;
    }

    /** `next_search()`. */
    method NextSearch(search: SearchFn)
      modifies this
      ensures State() == AfterNextSearch(old(State()), search)
      ensures old(Valid()) ==> Valid()
    {
      if input == [] {
        return;
      }
      ghost var before := State();
      Advance();
      var outcome := search(engine, input, start);
      match outcome {
        case Ok(batch) =>
          var novel := Unseen(results, batch);
          if novel != [] {
            results := results + novel;
            TotalPages();
          } else {
            warningMessage := Some(NoMoreResultsMessage);
          }
        case Err(e) =>
          errorMessage := Some(NextSearchFailedPrefix + Message(e));
      }
      if Paged(before) {
        NextSearchPaged(before, search);
      }
    }

    /**
     * `perform_search()`: `now` is the time of the rate-limit check and
     * `finished` the time the search completed.
     */
    method PerformSearch(now: nat, finished: nat, search: SearchFn)
      modifies this
      ensures State() == AfterPerformSearch(old(State()), now, finished, search)
      ensures old(Valid()) ==> Valid()
    {
      if input == [] {
        return;
      }
      if lastSearch.Some? && Elapsed(now, lastSearch.value) < RateLimitNanos {
        warningMessage := Some(WaitMessage);
        return;
      }
      ghost var before := State();
      Begin();
      var outcome := search(engine, input, start);
      match outcome {
        case Ok(batch) =>
          Show(batch);
          TotalPages();
        case Err(e) =>
          errorMessage := Some(SearchFailedPrefix + Message(e));
          ClearResults();
      }
      End(finished);
      if Paged(before) {
        PerformSearchPaged(before, now, finished, search);
      }
    }

    /** The first steps of `next_search()`. */
    method Advance()
      modifies this
      ensures State() == Advanced(old(State()))
    {
      errorMessage, warningMessage, start := None, None, SaturatingAdd(start, 10);
    }

    /** The first steps of a search that goes ahead. */
    method Begin()
      modifies this
      ensures State() == Begun(old(State()))
    {
      isLoading, errorMessage, warningMessage, start := true, None, None, 0;
    }

    /** The last steps of a search that went ahead. */
    method End(finished: nat)
      modifies this
      ensures State() == Ended(old(State()), finished)
    {
      isLoading, inputMode, lastSearch := false, false, Some(finished);
    }

    /** Showing a new batch from its first row. */
    method Show(batch: seq<SearchResult>)
      modifies this
      ensures State() == Showing(old(State()), batch)
    {
      results, selectedIndex, page, scrollOffset, listSelection := batch, 0, 0, 0, Some(0);
    }

    /** `perform_search()` with a failure left on screen. */
    method PerformSearchReported(now: nat, finished: nat, search: SearchFn)
      modifies this
      ensures State() == AfterPerformSearchReported(old(State()), now, finished, search)
    {
      var proceeds := input != [] && !(lastSearch.Some? && Elapsed(now, lastSearch.value) < RateLimitNanos);
      var outcome := search(engine, input, 0);
      PerformSearch(now, finished, search);
      if proceeds && outcome.Err? {
        errorMessage := Some(SearchFailedPrefix + Message(outcome.error));
      }
    }

    /** `change_page(direction)`. */
    method ChangePage(direction: i32, search: SearchFn)
      modifies this
      ensures State() == AfterChangePage(old(State()), direction, search)
      ensures old(Valid()) ==> Valid()
    {
      if results == [] {
        return;
      }
      ghost var before := State();
      var target := AsI32(page) + direction;
      if target < I32Min || I32Max < target {
        return;
      }
      if 0 <= target < AsI32(totalPages) {
        GoToPage(target);
      } else if target >= 0 && direction > 0 {
        NextSearch(search);
        if page < totalPages - 1 {
          GoToPage(page + 1);
        }
      }
      if Paged(before) {
        ChangePagePaged(before, direction, search);
      }
    }

    /** Moving to page `p` and selecting its first result, as `change_page` does on both of its paths. */
    method GoToPage(p: nat)
      requires results != [] && p < totalPages
      modifies this
      ensures State() == OnPage(old(State()), p)
    {
      page := p;
      var range := CurrentPageRange();
      selectedIndex, scrollOffset, listSelection := range.0, 0, Some(0);
    }
  }

  /**
   * A new session whose first search fails ends with no error message
   * shown: the as-written behaviour on a concrete run.
   */
  method FailedFirstSearch(e: SearchError) returns (shown: Option<string>)
    ensures shown == None
  {
    var app := new App("google");
    app.input := "rust";
    app.PerformSearch(0, 1, (_, _, _) => Err(e));
    shown := app.errorMessage;
  }
}
