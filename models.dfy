/** Search results and the paging and pacing constants. */
module Models {

  /**
   * One hit. The record has no equality of its own in the program; the only
   * identity the program ever compares is `url`.
   */
  datatype SearchResult = SearchResult(title: string, url: string, description: string)

  /** Results shown per page; also the offset step of "more results". */
  const ItemsPerPage: nat := 10

  /** Minimum time between two searches started by the user: one second, in nanoseconds. */
  const RateLimitNanos: nat := 1_000_000_000

  /** The urls held by a list of results. */
  function UrlSet(rs: seq<SearchResult>): set<string> {
    set r | r in rs :: r.url
  }

  /** No url occurs twice. */
  predicate DistinctUrls(rs: seq<SearchResult>) {
    forall i, j :: 0 <= i < j < |rs| ==> rs[i].url != rs[j].url
  }

  /** `a` is `b` with some elements left out, the rest in the same order. */
  predicate Subsequence<T(==)>(a: seq<T>, b: seq<T>)
    decreases |b|
  {
    if a == [] then true
    else if b == [] then false
    else if a[0] == b[0] then Subsequence(a[1..], b[1..])
    else Subsequence(a, b[1..])
  }

  /** Dropping the head of the longer sequence keeps a subsequence. */
  lemma {:induction false} SubsequenceSkip<T>(a: seq<T>, b: seq<T>)
    requires b != [] && Subsequence(a, b[1..])
    ensures Subsequence(a, b)
    decreases |b|, |a|
  {
    if a != [] && a[0] == b[0] {
      SubsequenceTail(a, b[1..]);
    }
  }

  /** A subsequence's tail is a subsequence of the same sequence. */
  lemma {:induction false} SubsequenceTail<T>(a: seq<T>, c: seq<T>)
    requires a != [] && Subsequence(a, c)
    ensures Subsequence(a[1..], c)
    decreases |c|, |a|
  {
    if a[0] == c[0] {
      if a[1..] != [] {
        SubsequenceSkip(a[1..], c);
      }
    } else {
      SubsequenceTail(a, c[1..]);
      if a[1..] != [] {
        SubsequenceSkip(a[1..], c);
      }
    }
  }

  lemma UrlSetAppend(a: seq<SearchResult>, b: seq<SearchResult>)
    ensures UrlSet(a + b) == UrlSet(a) + UrlSet(b)
  {
    assert forall r :: r in a + b <==> r in a || r in b;
  }
}
