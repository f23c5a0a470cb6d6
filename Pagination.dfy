/** `fetchAllPlaylistItems` (script.js:62-94): paginated retrieval of a
    playlist's items. The remote API is an oracle given as the sequence of
    responses it returns, in request order: request k is answered by
    `pages[k]`, and a request beyond the end of the sequence is a transport
    failure (the `fetch` promise rejects). */
module Pagination {
  import opened Wrappers
  import opened Items

  const ENDPOINT := "https://www.googleapis.com/youtube/v3/playlistItems"
  /** The API's per-page maximum, sent as the `maxResults` parameter. */
  const MAX_RESULTS := "50"

  /** One GET request: the endpoint and its query parameters (percent-encoding
      of the query string is not modelled). */
  datatype Request = Request(endpoint: string, params: map<string, string>)

  /** The request for one page; `pageToken` is sent only when it is truthy. */
  function PageRequest(apiKey: string, playlistId: string, pageToken: string): Request {
    var params := map["part" := "snippet", "playlistId" := playlistId,
                      "maxResults" := MAX_RESULTS, "key" := apiKey];
    Request(ENDPOINT, if pageToken != "" then params["pageToken" := pageToken] else params)
  }

  /** What one request yields: a non-ok HTTP response with its status and body
      text, an ok response whose body is not JSON, or a parsed page. */
  datatype Response =
    | Failed(status: int, text: string)
    | Unparsable
    | Page(items: Option<seq<Item>>, nextPageToken: Option<string>)

  datatype FetchError =
    | HttpError(status: int, text: string)
    | BodyError
    | TransportError

  /** The loop goes on after this response: it is a page with a truthy token. */
  predicate Continues(r: Response) {
    r.Page? && Truthy(r.nextPageToken)
  }

  /** What a response adds to the accumulator: a page's items, or nothing. */
  function PageItems(r: Response): seq<Item> {
    if r.Page? && r.items.Some? then r.items.value else []
  }

  /** The token carried forward from a response that continues the loop. */
  function Token(r: Response): string {
    if Continues(r) then r.nextPageToken.value else ""
  }

  /** The index of the last request the loop issues: the first response that
      does not continue it, or |pages| when every response given continues
      (the next request then fails in transport). */
  function StopIndex(pages: seq<Response>): (n: nat)
    ensures n <= |pages|
    ensures forall j :: 0 <= j < n ==> Continues(pages[j])
    ensures n < |pages| ==> !Continues(pages[n])
  {
    StopFrom(pages, 0)
  }

  function StopFrom(pages: seq<Response>, k: nat): (n: nat)
    requires k <= |pages|
    requires forall j :: 0 <= j < k ==> Continues(pages[j])
    ensures k <= n <= |pages|
    ensures forall j :: 0 <= j < n ==> Continues(pages[j])
    ensures n < |pages| ==> !Continues(pages[n])
    decreases |pages| - k
  {
    if k == |pages| || !Continues(pages[k]) then k else StopFrom(pages, k + 1)
  }

  /** The concatenation, in response order, of every response's items. */
  function ConcatItems(pages: seq<Response>): seq<Item> {
    if pages == [] then []
    else PageItems(pages[0]) + ConcatItems(pages[1..])
  }

  /** The `pageToken` the k-th request carries: none for the first, and the
      previous response's `nextPageToken` afterwards. */
  function TokenBefore(pages: seq<Response>, k: nat): string {
    if 0 < k <= |pages| then Token(pages[k - 1]) else ""
  }

  /** What the whole paginated fetch yields: all or nothing. */
  function FetchOutcome(pages: seq<Response>): (r: Result<seq<Item>, FetchError>)
    ensures r.Success? ==> AllPlayable(r.value)
  {
    var n := StopIndex(pages);
    if n == |pages| then Failure(TransportError)
    else match pages[n]
      case Failed(status, text) => Failure(HttpError(status, text))
      case Unparsable => Failure(BodyError)
      case Page(_, _) => Success(FilterPlayable(ConcatItems(pages[..n + 1])))
  }

  /** The fetch loop. Returns the outcome and the requests it issued, in order. */
  method FetchAllPlaylistItems(apiKey: string, playlistId: string, pages: seq<Response>)
    returns (outcome: Result<seq<Item>, FetchError>, requests: seq<Request>)
    ensures outcome == FetchOutcome(pages)
    ensures |requests| == StopIndex(pages) + 1
    ensures forall k :: 0 <= k < |requests| ==>
      requests[k] == PageRequest(apiKey, playlistId, TokenBefore(pages, k))
    ensures "pageToken" !in requests[0].params
    ensures forall k :: 0 <= k < |requests| - 1 ==>
      "pageToken" in requests[k + 1].params &&
      requests[k + 1].params["pageToken"] == pages[k].nextPageToken.value
  {
    var items: seq<Item> := [];
    var pageToken := "";
    var k := 0;
    requests := [];
    while true
      invariant k <= |pages|
      invariant forall j :: 0 <= j < k ==> Continues(pages[j])
      invariant items == ConcatItems(pages[..k])
      invariant pageToken == TokenBefore(pages, k)
      invariant |requests| == k
      invariant forall j :: 0 <= j < k ==>
        requests[j] == PageRequest(apiKey, playlistId, TokenBefore(pages, j))
      decreases |pages| - k
    {
      requests := requests + [PageRequest(apiKey, playlistId, pageToken)];
      if k == |pages| {
        StopIndexIs(pages, k);
        outcome := Failure(TransportError);
        return;
      }
      var res := pages[k];
      if res.Failed? {
        StopIndexIs(pages, k);
        outcome := Failure(HttpError(res.status, res.text));
        return;
      }
      if res.Unparsable? {
        StopIndexIs(pages, k);
        outcome := Failure(BodyError);
        return;
      }
      assert pages[..k + 1] == pages[..k] + [res];
      ConcatItemsAppend(pages[..k], [res]);
      ConcatItemsSingle(res);
      if res.items.Some? && |res.items.value| > 0 {
        items := items + res.items.value;
      } else {
        assert PageItems(res) == [];
      }
      assert items == ConcatItems(pages[..k + 1]);
      if Truthy(res.nextPageToken) {
        pageToken := res.nextPageToken.value;
        k := k + 1;
      } else {
        StopIndexIs(pages, k);
        break;
      }
    }
    outcome := Success(FilterPlayable(items));
  }

  /** The stop index is the first response that does not continue the loop. */
  lemma StopIndexIs(pages: seq<Response>, k: nat)
    requires k <= |pages|
    requires forall j :: 0 <= j < k ==> Continues(pages[j])
    requires k < |pages| ==> !Continues(pages[k])
    ensures StopIndex(pages) == k
  {
  }

  lemma {:induction false} ConcatItemsAppend(a: seq<Response>, b: seq<Response>)
    ensures ConcatItems(a + b) == ConcatItems(a) + ConcatItems(b)
  {
    if a == [] {
      assert a + b == b;
    } else {
      assert (a + b)[1..] == a[1..] + b;
      ConcatItemsAppend(a[1..], b);
    }
  }

  lemma ConcatItemsSingle(r: Response)
    ensures ConcatItems([r]) == PageItems(r)
  {
    assert [r][1..] == [];
  }

  /** Splits the concatenation around page `j`. */
  lemma ConcatItemsSplit(pages: seq<Response>, j: nat)
    requires j < |pages|
    ensures ConcatItems(pages) ==
      ConcatItems(pages[..j]) + PageItems(pages[j]) + ConcatItems(pages[j + 1..])
  {
    var a, tail := pages[..j], pages[j..];
    assert pages == a + tail;
    ConcatItemsAppend(a, tail);
    assert tail[0] == pages[j] && tail[1..] == pages[j + 1..];
  }

  /** Pages whose items are missing or empty contribute nothing. */
  lemma {:induction false} ConcatItemsSkipsEmptyPage(pages: seq<Response>, j: nat)
    requires j < |pages| && PageItems(pages[j]) == []
    ensures ConcatItems(pages) == ConcatItems(pages[..j] + pages[j + 1..])
  {
    if j == 0 {
      assert pages[..0] + pages[1..] == pages[1..];
    } else {
      var rest := pages[1..];
      var skipped := pages[..j] + pages[j + 1..];
      assert skipped[0] == pages[0];
      assert skipped[1..] == rest[..j - 1] + rest[j..];
      ConcatItemsSkipsEmptyPage(rest, j - 1);
    }
  }

  /** Every item of every page, in order: item `i` of page `j` sits right after
      the items of pages `0..j` and the first `i` items of page `j`. */
  lemma ConcatItemsAt(pages: seq<Response>, j: nat, i: nat)
    requires j < |pages| && i < |PageItems(pages[j])|
    ensures var before := |ConcatItems(pages[..j])| + i;
      before < |ConcatItems(pages)| && ConcatItems(pages)[before] == PageItems(pages[j])[i]
  {
    ConcatItemsSplit(pages, j);
  }

  /** Response `n` is a parsed page without `nextPageToken`, and every
      response before it continued the loop. */
  predicate LastPage(pages: seq<Response>, n: nat)
    requires n < |pages|
  {
    pages[n].Page? && !Truthy(pages[n].nextPageToken)
    && forall j :: 0 <= j < n ==> Continues(pages[j])
  }

  /** Success exactly when the loop reaches a parsed page with no
      `nextPageToken` before any failure; the items are then the playable
      items of the pages up to that one, in response order. */
  lemma FetchSucceedsIff(pages: seq<Response>)
    ensures FetchOutcome(pages).Success? <==>
      exists n :: 0 <= n < |pages| && LastPage(pages, n)
    ensures FetchOutcome(pages).Success? ==>
      FetchOutcome(pages).value == FilterPlayable(ConcatItems(pages[..StopIndex(pages) + 1]))
  {
    var n := StopIndex(pages);
    if FetchOutcome(pages).Success? {
      assert n < |pages| && pages[n].Page?;
      assert LastPage(pages, n);
    }
    if exists m :: 0 <= m < |pages| && LastPage(pages, m) {
      var m :| 0 <= m < |pages| && LastPage(pages, m);
      StopIndexIs(pages, m);
      assert pages[m].Page?;
    }
  }

  /** All or nothing: a non-ok response reached by the loop fails the whole
      fetch with that response's status and text, whatever the pages before
      it held. */
  lemma FetchFailsOnFailedPage(pages: seq<Response>, j: nat)
    requires j < |pages| && pages[j].Failed?
    requires forall i :: 0 <= i < j ==> Continues(pages[i])
    ensures FetchOutcome(pages) == Failure(HttpError(pages[j].status, pages[j].text))
  {
    StopIndexIs(pages, j);
  }

  /** Responses after the last request is answered are never looked at. */
  lemma FetchIgnoresLaterPages(pages: seq<Response>, rest: seq<Response>)
    requires StopIndex(pages) < |pages|
    ensures var prefix := pages[..StopIndex(pages) + 1];
      StopIndex(prefix + rest) == StopIndex(pages) &&
      FetchOutcome(prefix + rest) == FetchOutcome(pages)
  {
    var n := StopIndex(pages);
    var extended := pages[..n + 1] + rest;
    assert forall j :: 0 <= j <= n ==> extended[j] == pages[j];
    StopIndexIs(extended, n);
    assert extended[..n + 1] == pages[..n + 1];
  }

  /** Pages that hold only malformed items: not a failure, but an empty result. */
  lemma FetchOfMalformedOnly(pages: seq<Response>)
    requires StopIndex(pages) < |pages| && pages[StopIndex(pages)].Page?
    requires NonePlayable(ConcatItems(pages[..StopIndex(pages) + 1]))
    ensures FetchOutcome(pages) == Success([])
  {
    var all := ConcatItems(pages[..StopIndex(pages) + 1]);
    FilterEmptyIff(all);
    assert FilterPlayable(all) == [];
    assert FetchOutcome(pages).Success?;
  }

  /** N pages with continuation tokens on all but the last: N requests, and
      the playable items of all pages concatenated in page order. */
  lemma FetchOfCompletePagination(pages: seq<Response>)
    requires |pages| > 0
    requires forall j :: 0 <= j < |pages| - 1 ==> Continues(pages[j])
    requires pages[|pages| - 1].Page? && !Truthy(pages[|pages| - 1].nextPageToken)
    ensures StopIndex(pages) + 1 == |pages|
    ensures FetchOutcome(pages) == Success(FilterPlayable(ConcatItems(pages)))
  {
    var n := |pages| - 1;
    assert StopIndex(pages) == n by {
      StopIndexIs(pages, n);
    }
    assert pages[..n + 1] == pages;
    assert pages[n].Page?;
  }
}
