/** The errors of the search pipeline and the texts they display as. */
module Errors {

  datatype SearchError =
    | NetworkError(detail: string)
    | RateLimited
    | Blocked
    | InvalidResponse(detail: string)
    | Timeout
    | Other(detail: string)
    | NoResults
    | Unknown

  const NetworkPrefix := "Network error: "
  const InvalidPrefix := "Invalid response from search engine: "
  const OtherPrefix := "Other error: "

  /** The `Display` text of an error. */
  function Message(e: SearchError): string {
    match e
    case NetworkError(d) => NetworkPrefix + d
    case RateLimited => "Rate limited by search engine"
    case Blocked => "Search engine blocked the request"
    case InvalidResponse(d) => InvalidPrefix + d
    case Timeout => "Request timeout"
    case Other(d) => OtherPrefix + d
    case NoResults => "No search results found"
    case Unknown => "Unknown error occurred"
  }

  /** The character at which each kind of message first differs from the others. */
  function Signature(e: SearchError): (r: (char, char))
  {
    match e
    case NetworkError(_) => ('N', 'e')
    case RateLimited => ('R', 'a')
    case Blocked => ('S', 'e')
    case InvalidResponse(_) => ('I', 'n')
    case Timeout => ('R', 'e')
    case Other(_) => ('O', 't')
    case NoResults => ('N', 'o')
    case Unknown => ('U', 'n')
  }

  lemma MessageSignature(e: SearchError)
    ensures |Message(e)| >= 2 && (Message(e)[0], Message(e)[1]) == Signature(e)
  {
  }

  /**
   * A displayed message determines the error it came from: the fixed texts
   * and prefixes are pairwise distinct, and a prefix followed by a detail
   * gives the detail back.
   */
  lemma MessageDeterminesError(a: SearchError, b: SearchError)
    requires Message(a) == Message(b)
    ensures a == b
  {
    MessageSignature(a);
    MessageSignature(b);
    var m := Message(a);
    match a
    case NetworkError(d) =>
      assert d == m[|NetworkPrefix|..];
    case InvalidResponse(d) =>
      assert d == m[|InvalidPrefix|..];
    case Other(d) =>
      assert d == m[|OtherPrefix|..];
    case _ =>
  }
}
