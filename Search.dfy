/**
 * The search page's data access (src/pages/index.tsx): the statistic `Item`
 * and `fetchData`, which classifies an HTTP response and picks the statistics
 * to show. The request itself is not modelled: `fetchData` is a function of
 * the response that the request produced.
 */
module Search {
  import opened Wrappers

  /** One entry of an item's `teaser_image_urls`. */
  datatype TeaserImage = TeaserImage(width: int, src: string)

  /** A statistic as the search endpoints return it. Only `identifier` takes
      part in any decision; the other fields are carried unchanged. */
  datatype Item = Item(
    identifier: int,
    title: string,
    link: string,
    subject: string,
    description: string,
    date: string,
    premium: int,
    imageUrl: string,
    teaserImageUrls: seq<TeaserImage>)

  /** The parsed JSON body of a response: `{ items?: Item[] }`. */
  datatype Body = Body(items: Option<seq<Item>>)

  /** What `fetch` resolved to: the HTTP status and the body it carries. */
  datatype Response = Response(status: int, body: Body) {
    /** `Response.ok` of the Fetch standard: a status in 200..299. */
    predicate Ok() {
      200 <= status <= 299
    }
  }

  /** The two errors `fetchData` throws, each with its `message`. */
  datatype FetchError = InvalidApiKey | NetworkNotOk {
    function Message(): string {
      match this
      case InvalidApiKey => "Invalid API Key"
      case NetworkNotOk => "Network response was not ok"
    }
  }

  /** The status the real API answers for a rejected API key. */
  const Unauthorized: int := 401

  /** The one search term the demo data set answers. */
  const DemoTerm: string := "statista"

  /** `toLowerCase` on one character, restricted to ASCII letters. */
  function LowerChar(c: char): char {
    if 'A' <= c <= 'Z' then (c as int + 32) as char else c
  }

  /** The upper-case ASCII letter of a lower-case one. */
  function UpperChar(c: char): char {
    if 'a' <= c <= 'z' then (c as int - 32) as char else c
  }

  /** `String.prototype.toLowerCase` with ASCII case folding. */
  function Lower(s: string): (r: string)
    ensures |r| == |s|
    ensures forall i :: 0 <= i < |s| ==> r[i] == LowerChar(s[i])
  {
    if s == [] then [] else [LowerChar(s[0])] + Lower(s[1..])
  }

  /** `word` consists of lower-case ASCII letters only. */
  predicate IsLowerWord(word: string) {
    forall i :: 0 <= i < |word| ==> 'a' <= word[i] <= 'z'
  }

  /** `t` spells `word` with any mix of upper- and lower-case letters. */
  predicate MatchesIgnoringCase(t: string, word: string) {
    |t| == |word| && forall i :: 0 <= i < |t| ==> t[i] == word[i] || t[i] == UpperChar(word[i])
  }

  lemma LowerCharIs(c: char, w: char)
    requires 'a' <= w <= 'z'
    ensures LowerChar(c) == w <==> c == w || c == UpperChar(w)
  {
  }

  /** Comparing the lower-cased term with a lower-case word is the same as
      comparing the two letter by letter ignoring case, in both directions. */
  lemma LowerMatches(t: string, word: string)
    requires IsLowerWord(word)
    ensures Lower(t) == word <==> MatchesIgnoringCase(t, word)
  {
    if Lower(t) == word {
      forall i | 0 <= i < |t| ensures t[i] == word[i] || t[i] == UpperChar(word[i]) {
        LowerCharIs(t[i], word[i]);
      }
    }
    if MatchesIgnoringCase(t, word) {
      forall i | 0 <= i < |t| ensures Lower(t)[i] == word[i] {
        LowerCharIs(t[i], word[i]);
      }
    }
  }

  /**
   * `fetchData(searchTerm, isRealApi)` given the response its request
   * produced. In real-API mode a 401 is reported as an invalid key before
   * the generic `ok` check; in demo mode only a case-insensitive
   * "statista" is answered (with the body's items as they are, possibly
   * absent); in real-API mode the items, or none when the body has none.
   */
  function FetchData(searchTerm: string, isRealApi: bool, res: Response): (r: Result<Option<seq<Item>>, FetchError>)
    // a call fails exactly when the response is not ok: the 401 check only
    // changes which error is reported
    ensures r.Failure? <==> !res.Ok()
    // the invalid-key error is reported for a real-API 401 and for nothing else
    ensures r == Failure(InvalidApiKey) <==> isRealApi && res.status == Unauthorized
    // in real-API mode a successful call always produces a list
    ensures isRealApi && r.Success? ==> r.value.Some?
  {
    if isRealApi && res.status == Unauthorized then
      Failure(InvalidApiKey)
    else if !res.Ok() then
      Failure(NetworkNotOk)
    else if !isRealApi then
      Success(if Lower(searchTerm) == DemoTerm then res.body.items else Some([]))
    else
      Success(Some(res.body.items.GetOr([])))
  }

  /** A 401 in real-API mode is never reported as a network error. */
  lemma RealApiUnauthorized(searchTerm: string, res: Response)
    requires res.status == Unauthorized
    ensures FetchData(searchTerm, true, res) == Failure(InvalidApiKey)
    ensures FetchData(searchTerm, true, res) != Failure(NetworkNotOk)
  {
  }

  /** In demo mode a 401 is one more non-ok status. */
  lemma DemoUnauthorized(searchTerm: string, res: Response)
    requires res.status == Unauthorized
    ensures FetchData(searchTerm, false, res) == Failure(NetworkNotOk)
  {
  }

  /** Any other non-ok status is a network error in either mode. */
  lemma NotOkIsNetworkError(searchTerm: string, isRealApi: bool, res: Response)
    requires !res.Ok() && res.status != Unauthorized
    ensures FetchData(searchTerm, isRealApi, res) == Failure(NetworkNotOk)
  {
  }

  /** Demo mode with an ok response: the body's items, exactly when the term
      is "statista" in any letter case, and the empty list otherwise. */
  lemma DemoResult(searchTerm: string, res: Response)
    requires res.Ok()
    ensures MatchesIgnoringCase(searchTerm, DemoTerm) ==> FetchData(searchTerm, false, res) == Success(res.body.items)
    ensures !MatchesIgnoringCase(searchTerm, DemoTerm) ==> FetchData(searchTerm, false, res) == Success(Some([]))
  {
    LowerMatches(searchTerm, DemoTerm);
  }

  /** Two spellings the demo answers, and a near miss it does not. */
  lemma DemoSpellings(res: Response)
    requires res.Ok()
    ensures FetchData("Statista", false, res) == Success(res.body.items)
    ensures FetchData("STATISTA", false, res) == Success(res.body.items)
    ensures FetchData("statistics", false, res) == Success(Some([]))
  {
    DemoResult("Statista", res);
    DemoResult("STATISTA", res);
    DemoResult("statistics", res);
  }

  /** Real-API mode with an ok response: the body's items, or the empty list
      when the body has none. */
  lemma RealApiResult(searchTerm: string, res: Response)
    requires res.Ok()
    ensures res.body.items.Some? ==> FetchData(searchTerm, true, res) == Success(res.body.items)
    ensures res.body.items.None? ==> FetchData(searchTerm, true, res) == Success(Some([]))
  {
  }

  /** In real-API mode the search term only reaches the URL: the outcome is
      a function of the response alone. */
  lemma RealApiIgnoresTerm(t1: string, t2: string, res: Response)
    ensures FetchData(t1, true, res) == FetchData(t2, true, res)
  {
  }

  /** The error text the page shows identifies the error. */
  lemma MessagesIdentifyErrors(e1: FetchError, e2: FetchError)
    ensures e1.Message() == e2.Message() <==> e1 == e2
  {
  }
}
