/**
 * The three search engines: choosing one by name, cycling through them,
 * building their query urls, extracting results from a fetched page, and
 * the whole search that chains those with `fetch_response_text`.
 *
 * The HTML page is abstracted to the sequence of its result containers
 * (`Container`); percent-encoding and percent-decoding are parameters.
 */
module Engine {
  import opened Prelude
  import opened Text
  import opened Models
  import opened Errors
  import opened Config
  import opened Fetch

  datatype SearchEngine = Google | Bing | DuckDuckGo

  /** `name` / `as_str`. */
  function Name(e: SearchEngine): string {
    match e
    case Google => "Google"
    case Bing => "Bing"
    case DuckDuckGo => "DuckDuckGo"
  }

  /** The lower-case form of each engine's name: the names the settings file uses. */
  function LowerName(e: SearchEngine): string {
    match e
    case Google => "google"
    case Bing => "bing"
    case DuckDuckGo => "duckduckgo"
  }

  lemma NameLower(e: SearchEngine)
    ensures ToLowercase(Name(e)) == LowerName(e)
  {
  }

  /** `name` is some engine's name, ignoring case. */
  predicate NamesEngine(name: string) {
    ToLowercase(name) in {"google", "bing", "duckduckgo"}
  }

  /**
   * `SearchEngine::favor`: the engine whose lower-case name is the
   * lower-cased input, Google when there is none.
   */
  function Favor(name: string): (e: SearchEngine)
    ensures NamesEngine(name) ==> LowerName(e) == ToLowercase(name)
    ensures !NamesEngine(name) ==> e == Google
  {
    match ToLowercase(name)
    case "google" => Google
    case "bing" => Bing
    case "duckduckgo" => DuckDuckGo
    case _ => Google
  }

  /** Every engine is chosen by its own name, whatever its case. */
  lemma FavorName(e: SearchEngine, spelled: string)
    requires ToLowercase(spelled) == ToLowercase(Name(e))
    ensures Favor(spelled) == e
  {
    NameLower(e);
  }

  /**
   * Every engine name the settings validation accepts selects the engine of
   * that name: the case-sensitive check admits only spellings the
   * case-insensitive lookup resolves.
   */
  lemma ValidatedFavor(c: EngineConfig)
    requires ValidateEngine(c).Pass?
    ensures LowerName(Favor(c.favor)) == c.favor
  {
    var lower := ToLowercase(c.favor);
    if c.favor == "google" {
      assert lower == "google";
    } else if c.favor == "bing" {
      assert lower == "bing";
    } else {
      assert lower == "duckduckgo";
    }
  }

  /** `SearchEngine::next`: Google, then Bing, then DuckDuckGo, then Google again. */
  function Next(e: SearchEngine): (r: SearchEngine)
    ensures r != e
  {
    match e
    case Google => Bing
    case Bing => DuckDuckGo
    case DuckDuckGo => Google
  }

  /** Three steps come back to the start, and the three steps visit every engine. */
  lemma NextCycle(e: SearchEngine)
    ensures Next(Next(Next(e))) == e
    ensures Next(Next(e)) != e
    ensures {e, Next(e), Next(Next(e))} == {Google, Bing, DuckDuckGo}
  {
  }

  /** The fixed text of an engine's query url before the encoded query. */
  function QueryPrefix(e: SearchEngine): string {
    match e
    case Google => "https://www.google.com/search?q="
    case Bing => "https://www.bing.com/search?q="
    case DuckDuckGo => "https://html.duckduckgo.com/html/?q="
  }

  /** The fixed text between the encoded query and the result offset. */
  function OffsetKey(e: SearchEngine): string {
    match e
    case Google => "&num=10&start="
    case Bing => "&count=10&first="
    case DuckDuckGo => "&s="
  }

  /** `build_url`: the engine's query url for `query`, asking for results from offset `start`. */
  function BuildUrl(e: SearchEngine, encode: string -> string, query: string, start: u16): string {
    QueryPrefix(e) + encode(query) + OffsetKey(e) + Decimal(start)
  }

  /**
   * The url holds its parts in order, and the offset can be read back from
   * the digits that end it.
   */
  lemma BuildUrlOffset(e: SearchEngine, encode: string -> string, query: string, start: u16)
    ensures var u := BuildUrl(e, encode, query, start);
      var k := |QueryPrefix(e)| + |encode(query)| + |OffsetKey(e)|;
      && k < |u|
      && StartsWith(u, QueryPrefix(e))
      && u[|QueryPrefix(e)|..|QueryPrefix(e)| + |encode(query)|] == encode(query)
      && IsDigits(u[k..]) && DigitsValue(u[k..]) == start
  {
    var u := BuildUrl(e, encode, query, start);
    var k := |QueryPrefix(e)| + |encode(query)| + |OffsetKey(e)|;
    assert u[k..] == Decimal(start);
    DecimalRoundTrip(start);
  }

  /** Different engines, or different offsets, give different urls. */
  lemma BuildUrlInjective(e1: SearchEngine, e2: SearchEngine, encode: string -> string, query: string,
                          s1: u16, s2: u16)
    requires BuildUrl(e1, encode, query, s1) == BuildUrl(e2, encode, query, s2)
    ensures e1 == e2 && s1 == s2
  {
    var u := BuildUrl(e1, encode, query, s1);
    assert u[12] == QueryPrefix(e1)[12];
    assert u[12] == QueryPrefix(e2)[12];
    assert e1 == e2;
    var k := |QueryPrefix(e1)| + |encode(query)| + |OffsetKey(e1)|;
    assert u[k..] == Decimal(s1);
    assert BuildUrl(e2, encode, query, s2)[k..] == Decimal(s2);
    DecimalInjective(s1, s2);
  }

  /**
   * What the extraction loop sees of one result container. For Google and
   * Bing: the href of the first link element (None when there is no link
   * or it has no href), and the text of the first title and description
   * elements. For DuckDuckGo: the href and text of the first title anchor
   * and the text of the first snippet.
   */
  datatype Container = Container(href: Option<string>, title: Option<string>, snippet: Option<string>)

  /**
   * DuckDuckGo's url clean-up: absolute urls are kept, protocol-relative
   * ones get "https:", site-relative redirects give up the percent-decoded
   * target found after "uddg="; anything else is dropped.
   */
  function CleanUrl(decode: string -> Option<string>, url: string): (r: Option<string>)
    ensures StartsWith(url, "http") ==> r == Some(url)
    ensures !StartsWith(url, "http") && StartsWith(url, "//") ==> r == Some("https:" + url)
    ensures !StartsWith(url, "/") && !StartsWith(url, "http") ==> r.None?
    ensures !StartsWith(url, "http") && !StartsWith(url, "//") && StartsWith(url, "/") ==>
      r == (match SplitSecond(url, "uddg=") case None => None case Some(target) => decode(target))
  {
    if StartsWith(url, "http") then Some(url)
    else if StartsWith(url, "//") then Some("https:" + url)
    else if StartsWith(url, "/") then
      match SplitSecond(url, "uddg=")
      case None => None
      case Some(target) => decode(target)
    else None
  }

  /** Only redirects can yield a url that is not absolute. */
  lemma CleanUrlAbsolute(decode: string -> Option<string>, url: string)
    requires CleanUrl(decode, url).Some?
    requires StartsWith(url, "http") || StartsWith(url, "//")
    ensures StartsWith(CleanUrl(decode, url).value, "http")
  {
    var r := CleanUrl(decode, url).value;
    if !StartsWith(url, "http") {
      assert r[..4] == "https:"[..4];
    }
  }

  /** A redirect with no "uddg=" parameter yields nothing. */
  lemma CleanUrlNeedsTarget(decode: string -> Option<string>, url: string)
    requires !StartsWith(url, "http") && !StartsWith(url, "//")
    requires Find(url, "uddg=").None?
    ensures CleanUrl(decode, url).None?
  {
  }

  const NoTitle := "No title"
  const NoDescription := "No description"

  /** The result a container would give, before the duplicate check; None when it is skipped. */
  function Candidate(e: SearchEngine, decode: string -> Option<string>, c: Container): Option<SearchResult>
  {
    if e == DuckDuckGo then
      if c.href.None? || c.title.None? || c.snippet.None? then None
      else
        var url := CleanUrl(decode, c.href.value);
        if url.None? then None
        else Some(SearchResult(Trim(c.title.value), url.value, Trim(c.snippet.value)))
    else if c.href.Some? && StartsWith(c.href.value, "http") then
      Some(SearchResult(
        if c.title.Some? then Trim(c.title.value) else NoTitle,
        c.href.value,
        if c.snippet.Some? then Trim(c.snippet.value) else NoDescription))
    else None
  }

  /**
   * Which containers give a result and what it holds: for Google and Bing
   * any container whose link is absolute, with placeholders for a missing
   * title or description; for DuckDuckGo only containers with a title anchor
   * that has an href, a snippet, and a url that survives the clean-up.
   */
  lemma CandidateSpec(e: SearchEngine, decode: string -> Option<string>, c: Container)
    ensures var r := Candidate(e, decode, c);
      && (e != DuckDuckGo ==> (r.Some? <==> c.href.Some? && StartsWith(c.href.value, "http")))
      && (e == DuckDuckGo ==> (r.Some? <==>
           c.href.Some? && c.title.Some? && c.snippet.Some? && CleanUrl(decode, c.href.value).Some?))
      && (r.Some? && e != DuckDuckGo ==>
           && r.value.url == c.href.value
           && r.value.title == (if c.title.Some? then Trim(c.title.value) else NoTitle)
           && r.value.description == (if c.snippet.Some? then Trim(c.snippet.value) else NoDescription))
      && (r.Some? && e == DuckDuckGo ==>
           r.value == SearchResult(Trim(c.title.value), CleanUrl(decode, c.href.value).value, Trim(c.snippet.value)))
  {
  }

  /** An optional result as a list of zero or one. */
  function Listed(o: Option<SearchResult>): seq<SearchResult> {
    match o
    case Some(r) => [r]
    case None => []
  }

  /** The results of all containers that are not skipped, in document order, duplicates included. */
  function Candidates(e: SearchEngine, decode: string -> Option<string>, doc: seq<Container>): seq<SearchResult>
    decreases |doc|
  {
    if doc == [] then []
    else
      Listed(Candidate(e, decode, doc[0])) + Candidates(e, decode, doc[1..])
  }

  /** `rs` without every result whose url is in `seen` or occurs earlier in `rs`. */
  function Dedup(rs: seq<SearchResult>, seen: set<string>): seq<SearchResult>
    decreases |rs|
  {
    if rs == [] then []
    else if rs[0].url in seen then Dedup(rs[1..], seen)
    else [rs[0]] + Dedup(rs[1..], seen + {rs[0].url})
  }

  /** Deduplication leaves pairwise distinct urls, none of them already seen. */
  lemma {:induction false} DedupDistinct(rs: seq<SearchResult>, seen: set<string>)
    ensures DistinctUrls(Dedup(rs, seen))
    ensures UrlSet(Dedup(rs, seen)) !! seen
    decreases |rs|
  {
    if rs != [] {
      if rs[0].url in seen {
        DedupDistinct(rs[1..], seen);
      } else {
        var tail := Dedup(rs[1..], seen + {rs[0].url});
        DedupDistinct(rs[1..], seen + {rs[0].url});
        UrlSetAppend([rs[0]], tail);
        assert rs[0].url !in UrlSet(tail);
        forall j | 0 < j < |[rs[0]] + tail|
          ensures ([rs[0]] + tail)[j].url != rs[0].url
        {
          assert ([rs[0]] + tail)[j] == tail[j - 1];
          assert tail[j - 1] in tail;
        }
      }
    }
  }

  /** `r` sits at index i of `rs`, its url is not in `seen`, and no earlier result has that url. */
  predicate FirstAt(rs: seq<SearchResult>, seen: set<string>, r: SearchResult, i: int) {
    0 <= i < |rs| && rs[i] == r && r.url !in seen && forall j :: 0 <= j < i ==> rs[j].url != r.url
  }

  predicate IsFirst(rs: seq<SearchResult>, seen: set<string>, r: SearchResult) {
    exists i :: 0 <= i < |rs| && FirstAt(rs, seen, r, i)
  }

  lemma IsFirstStep(rs: seq<SearchResult>, seen: set<string>, r: SearchResult)
    requires rs != []
    ensures var seen' := if rs[0].url in seen then seen else seen + {rs[0].url};
      IsFirst(rs, seen, r) <==> (rs[0] == r && r.url !in seen) || IsFirst(rs[1..], seen', r)
  {
    var seen' := if rs[0].url in seen then seen else seen + {rs[0].url};
    if IsFirst(rs, seen, r) {
      var i :| 0 <= i < |rs| && FirstAt(rs, seen, r, i);
      if i > 0 {
        assert FirstAt(rs[1..], seen', r, i - 1) by {
          forall j | 0 <= j < i - 1 ensures rs[1..][j].url != r.url {
            assert rs[1..][j] == rs[j + 1];
          }
        }
      }
    }
    if IsFirst(rs[1..], seen', r) {
      var i :| 0 <= i < |rs[1..]| && FirstAt(rs[1..], seen', r, i);
      assert FirstAt(rs, seen, r, i + 1) by {
        forall j | 0 <= j < i + 1 ensures rs[j].url != r.url {
          if j > 0 { assert rs[j] == rs[1..][j - 1]; }
        }
      }
    }
    if rs[0] == r && r.url !in seen {
      assert FirstAt(rs, seen, r, 0);
    }
  }

  /**
   * A result survives deduplication exactly when it is the first result with
   * its url and that url was not seen before.
   */
  lemma {:induction false} DedupFirstOccurrence(rs: seq<SearchResult>, seen: set<string>, r: SearchResult)
    ensures r in Dedup(rs, seen) <==> IsFirst(rs, seen, r)
    decreases |rs|
  {
    if rs != [] {
      var seen' := if rs[0].url in seen then seen else seen + {rs[0].url};
      DedupFirstOccurrence(rs[1..], seen', r);
      IsFirstStep(rs, seen, r);
    }
  }

  /** Deduplication loses no url that was not seen before. */
  lemma {:induction false} DedupKeepsUrls(rs: seq<SearchResult>, seen: set<string>)
    ensures UrlSet(Dedup(rs, seen)) == UrlSet(rs) - seen
    decreases |rs|
  {
    if rs != [] {
      assert rs == [rs[0]] + rs[1..];
      UrlSetAppend([rs[0]], rs[1..]);
      if rs[0].url in seen {
        DedupKeepsUrls(rs[1..], seen);
      } else {
        DedupKeepsUrls(rs[1..], seen + {rs[0].url});
        UrlSetAppend([rs[0]], Dedup(rs[1..], seen + {rs[0].url}));
      }
    }
  }

  /** Deduplication keeps document order: its output is a subsequence of its input. */
  lemma {:induction false} DedupOrder(rs: seq<SearchResult>, seen: set<string>)
    ensures Subsequence(Dedup(rs, seen), rs)
    decreases |rs|
  {
    if rs != [] {
      if rs[0].url in seen {
        DedupOrder(rs[1..], seen);
        SubsequenceSkip(Dedup(rs[1..], seen), rs);
      } else {
        DedupOrder(rs[1..], seen + {rs[0].url});
        var d := [rs[0]] + Dedup(rs[1..], seen + {rs[0].url});
        assert d[1..] == Dedup(rs[1..], seen + {rs[0].url});
      }
    }
  }

  /** Nothing survives deduplication against nothing exactly when there was nothing. */
  lemma DedupEmpty(rs: seq<SearchResult>)
    ensures Dedup(rs, {}) == [] <==> rs == []
  {
    if rs != [] {
      assert |Dedup(rs, {})| >= 1;
    }
  }

  /**
   * The outcome of the extraction loop over a page: the deduplicated
   * candidates, or `NoResults` when there are none.
   */
  function Extraction(e: SearchEngine, decode: string -> Option<string>, doc: seq<Container>)
    : (r: Result<seq<SearchResult>, SearchError>)
    ensures r.Err? <==> Candidates(e, decode, doc) == []
    ensures r.Err? ==> r.error == NoResults
    ensures r.Ok? ==> r.value != [] && DistinctUrls(r.value)
    ensures r.Ok? ==> UrlSet(r.value) == UrlSet(Candidates(e, decode, doc))
    ensures r.Ok? ==> Subsequence(r.value, Candidates(e, decode, doc))
  {
    var cands := Candidates(e, decode, doc);
    DedupEmpty(cands);
    DedupDistinct(cands, {});
    DedupKeepsUrls(cands, {});
    DedupOrder(cands, {});
    if cands == [] then Err(NoResults) else Ok(Dedup(cands, {}))
  }

  /**
   * One container of the extraction loop: keeping its candidate when the url
   * is new, and skipping it otherwise, leaves the loop on course for the
   * whole page's deduplicated candidates.
   */
  lemma ExtractStep(e: SearchEngine, decode: string -> Option<string>, doc: seq<Container>, i: nat,
                    results: seq<SearchResult>, seen: set<string>)
    requires i < |doc|
    requires results + Dedup(Candidates(e, decode, doc[i..]), seen) == Dedup(Candidates(e, decode, doc), {})
    ensures var c := Candidate(e, decode, doc[i]);
      var keep := c.Some? && c.value.url !in seen;
      var results' := if keep then results + [c.value] else results;
      var seen' := if keep then seen + {c.value.url} else seen;
      results' + Dedup(Candidates(e, decode, doc[i + 1..]), seen') == Dedup(Candidates(e, decode, doc), {})
  {
    var c := Candidate(e, decode, doc[i]);
    var rest := Candidates(e, decode, doc[i + 1..]);
    CandidatesSuffix(e, decode, doc, i);
    DedupStep(c, rest, seen);
    if c.Some? && c.value.url !in seen {
      AppendAssoc(results, [c.value], Dedup(rest, seen + {c.value.url}));
    }
  }

  lemma CandidatesSuffix(e: SearchEngine, decode: string -> Option<string>, doc: seq<Container>, i: nat)
    requires i < |doc|
    ensures Candidates(e, decode, doc[i..]) == Listed(Candidate(e, decode, doc[i])) + Candidates(e, decode, doc[i + 1..])
  {
    assert doc[i..][1..] == doc[i + 1..];
  }

  lemma AppendAssoc(a: seq<SearchResult>, b: seq<SearchResult>, c: seq<SearchResult>)
    ensures a + (b + c) == a + b + c
  {
  }

  lemma DedupStep(o: Option<SearchResult>, rest: seq<SearchResult>, seen: set<string>)
    ensures Dedup(Listed(o) + rest, seen) ==
      if o.Some? && o.value.url !in seen then [o.value] + Dedup(rest, seen + {o.value.url})
      else Dedup(rest, seen)
  {
    if o.Some? {
      assert (Listed(o) + rest)[1..] == rest;
    } else {
      assert Listed(o) + rest == rest;
    }
  }

  /** When the loop has seen every container, its results are the page's extraction. */
  lemma ExtractDone(e: SearchEngine, decode: string -> Option<string>, doc: seq<Container>,
                    results: seq<SearchResult>, seen: set<string>)
    requires results + Dedup(Candidates(e, decode, doc[|doc|..]), seen) == Dedup(Candidates(e, decode, doc), {})
    ensures Extraction(e, decode, doc) == if results == [] then Err(NoResults) else Ok(results)
  {
    assert doc[|doc|..] == [];
    assert results + [] == results;
    DedupEmpty(Candidates(e, decode, doc));
  }

  /**
   * The extraction loop of each engine's `search`: walk the containers in
   * order, keep each candidate whose url has not been kept yet, and report
   * `NoResults` when nothing was kept.
   */
  method Extract(e: SearchEngine, decode: string -> Option<string>, doc: seq<Container>)
    returns (r: Result<seq<SearchResult>, SearchError>)
    ensures r == Extraction(e, decode, doc)
  {
    var results: seq<SearchResult> := [];
    var seen: set<string> := {};
    for i := 0 to |doc|
      invariant results + Dedup(Candidates(e, decode, doc[i..]), seen) == Dedup(Candidates(e, decode, doc), {})
    {
      ExtractStep(e, decode, doc, i, results, seen);
      var candidate := Candidate(e, decode, doc[i]);
      if candidate.Some? && candidate.value.url !in seen {
        seen := seen + {candidate.value.url};
        results := results + [candidate.value];
      }
    }
    ExtractDone(e, decode, doc, results, seen);
    if results == [] {
      return Err(NoResults);
    }
    return Ok(results);
  }

  /**
   * `SearchEngine::search`: build the url for `query` at offset `start`,
   * fetch it through the client's cache, and extract the results of the
   * page `parse` makes of the text. A fetch error is passed on unchanged.
   */
  method Search(client: Client, e: SearchEngine, encode: string -> string, decode: string -> Option<string>,
                parse: string -> seq<Container>, query: string, start: u16,
                c: SearchConfig, agent: nat, jitter: nat, buildError: Option<string>, transport: nat -> Attempt)
    returns (r: Result<seq<SearchResult>, SearchError>)
    requires BuildUrl(e, encode, query, start) !in client.cache ==> agent < |c.userAgents| && jitter < c.maxJitter
    modifies client
    ensures r.Ok? ==> r.value != [] && DistinctUrls(r.value)
    ensures var url := BuildUrl(e, encode, query, start);
      var fetched := if url in old(client.cache) then Ok(old(client.cache)[url])
                     else FetchMiss(PlanFor(url, c, agent, jitter, transport), buildError).0;
      && r == (match fetched case Err(x) => Err(x) case Ok(text) => Extraction(e, decode, parse(text)))
      && client.cache == (if fetched.Ok? then old(client.cache)[url := fetched.value] else old(client.cache))
      && client.trace == old(client.trace) +
           (if url in old(client.cache) then [] else FetchMiss(PlanFor(url, c, agent, jitter, transport), buildError).1)
  {
    var url := BuildUrl(e, encode, query, start);
    var text := client.FetchText(url, c, agent, jitter, buildError, transport);
    if text.Err? {
      return Err(text.error);
    }
    r := Extract(e, decode, parse(text.value));
  }
}
