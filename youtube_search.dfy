/**
 * The video search client: one bounded query against the YouTube Data API,
 * with the provider's answer normalised into video records. The HTTP call
 * itself is not modelled; what the API (and the environment) answers is an
 * input, `ApiOutcome`, and this module models what the client makes of it.
 */
module YouTubeSearch {
  import opened Schemas
  import opened Builtins

  const DescriptionLimit: nat := 200
  const WatchUrlPrefix := "https://www.youtube.com/watch?v="

  datatype Thumbnail = Thumbnail(url: string, width: nat, height: nat)

  datatype Snippet = Snippet(
    title: string,
    description: string,
    channelTitle: string,
    publishedAt: string,
    thumbnails: map<string, Thumbnail>)

  /** One entry of the response's "items"; `Malformed` lacks one of the keys the client reads. */
  datatype SearchItem = Item(snippet: Snippet, videoId: string) | Malformed

  /** The response body: not a JSON object, or one whose "items" key may be absent. */
  datatype ResponseBody = NotJson | Json(items: Option<seq<SearchItem>>)

  /** What one search request comes to before the client looks at it. */
  datatype ApiOutcome =
    | NoApiKey                                   // YOUTUBE_API_KEY is not set
    | Responded(status: int, body: ResponseBody) // the API answered with this status
    | RequestFailed                              // the request raised (connection error, 10-second timeout)

  datatype VideoInfo = VideoInfo(
    title: string,
    url: string,
    description: string,
    channel: string,
    publishedAt: string,
    thumbnails: map<string, Thumbnail>)

  /** A description over 200 characters is cut to its first 200, followed by "...". */
  function ShortenDescription(d: string): (r: string)
    ensures |d| <= DescriptionLimit ==> r == d
    ensures |d| > DescriptionLimit ==> |r| == DescriptionLimit + 3
    ensures |d| > DescriptionLimit ==> r[..DescriptionLimit] == d[..DescriptionLimit] && r[DescriptionLimit..] == "..."
  {
    if |d| > DescriptionLimit then d[..DescriptionLimit] + "..." else d
  }

  function ToVideoInfo(item: SearchItem): VideoInfo
    requires item.Item?
  {
    var s := item.snippet;
    VideoInfo(s.title, WatchUrlPrefix + item.videoId, ShortenDescription(s.description),
              s.channelTitle, s.publishedAt, s.thumbnails)
  }

  /**
   * `videos` is what the client returns for `items` when asked for at most
   * `maxResults`: the first `maxResults` items, each normalised, in the
   * provider's order; or nothing at all when one of those items is malformed
   * (the KeyError ends in the client's exception handler).
   */
  ghost predicate ShapedFrom(items: seq<SearchItem>, maxResults: nat, videos: seq<VideoInfo>) {
    var window := Take(items, maxResults);
    if exists i :: 0 <= i < |window| && window[i].Malformed? then videos == []
    else |videos| == |window| && forall i :: 0 <= i < |window| ==> videos[i] == ToVideoInfo(window[i])
  }

  /** The loop that builds the video list from the response's items. */
  method ShapeResults(items: seq<SearchItem>, maxResults: nat) returns (videos: seq<VideoInfo>)
    ensures |videos| <= maxResults
    ensures ShapedFrom(items, maxResults, videos)
  {
    var window := Take(items, maxResults);
    videos := [];
    for i := 0 to |window|
      invariant |videos| == i
      invariant forall k :: 0 <= k < i ==> window[k].Item? && videos[k] == ToVideoInfo(window[k])
    {
      if window[i].Malformed? {
        return [];
      }
      videos := videos + [ToVideoInfo(window[i])];
    }
  }

  /** True when the client reaches the item loop: status 200 with a JSON object body. */
  predicate Succeeded(outcome: ApiOutcome) {
    outcome.Responded? && outcome.status == 200 && outcome.body.Json?
  }

  function ItemsOf(outcome: ApiOutcome): seq<SearchItem>
    requires Succeeded(outcome)
  {
    match outcome.body.items
    case None => []
    case Some(items) => items
  }

  /** `videos` is the client's answer to `outcome`: shaped items on success, nothing on every failure. */
  ghost predicate Answers(outcome: ApiOutcome, maxResults: nat, videos: seq<VideoInfo>) {
    if Succeeded(outcome) then ShapedFrom(ItemsOf(outcome), maxResults, videos) else videos == []
  }

  /**
   * search_youtube_videos given what the request came to: a missing key, a
   * status other than 200, a body that is not a JSON object and a raised
   * request all give the empty list.
   */
  method SearchYouTubeVideos(outcome: ApiOutcome, maxResults: nat) returns (videos: seq<VideoInfo>)
    ensures |videos| <= maxResults
    ensures Answers(outcome, maxResults, videos)
    ensures !Succeeded(outcome) ==> videos == []
  {
    if Succeeded(outcome) {
      videos := ShapeResults(ItemsOf(outcome), maxResults);
    } else {
      videos := [];
    }
  }

  /** The outcome of the k-th request from now; a provider with no answers left fails the request. */
  function OutcomeAt(outcomes: seq<ApiOutcome>, k: nat): ApiOutcome {
    if k < |outcomes| then outcomes[k] else RequestFailed
  }

  /** The outcomes still to come after k requests. */
  function Remaining(outcomes: seq<ApiOutcome>, k: nat): (r: seq<ApiOutcome>)
    ensures |r| == |outcomes| - Min(|outcomes|, k)
    ensures forall j :: 0 <= j < |r| ==> r[j] == outcomes[k + j]
  {
    if k < |outcomes| then outcomes[k..] else []
  }

  /** The answer the client gives is never longer than what was asked for. */
  lemma AnswersBounded(outcome: ApiOutcome, maxResults: nat, videos: seq<VideoInfo>)
    requires Answers(outcome, maxResults, videos)
    ensures |videos| <= maxResults
    ensures !Succeeded(outcome) ==> videos == []
  {
  }

  /** One call of the search client: what was asked and what came back. */
  datatype Exchange = Exchange(query: string, maxResults: nat, videos: seq<VideoInfo>)

  /** Each call in `exchanges` got the client's answer to the outcome of its turn in `outcomes`. */
  ghost predicate AnsweredBy(outcomes: seq<ApiOutcome>, exchanges: seq<Exchange>) {
    forall k :: 0 <= k < |exchanges| ==> Answers(OutcomeAt(outcomes, k), exchanges[k].maxResults, exchanges[k].videos)
  }

  /** Calls answered by outcomes none of which succeeded all came back empty. */
  lemma {:induction false} NoSuccessNoVideos(outcomes: seq<ApiOutcome>, exchanges: seq<Exchange>)
    requires AnsweredBy(outcomes, exchanges)
    requires forall k :: 0 <= k < |outcomes| ==> !Succeeded(outcomes[k])
    ensures forall k :: 0 <= k < |exchanges| ==> exchanges[k].videos == []
  {
    forall k | 0 <= k < |exchanges| ensures exchanges[k].videos == [] {
      assert !Succeeded(OutcomeAt(outcomes, k));
    }
  }

  /**
   * The search client as the enhancer sees it. `outcomes` is how the API
   * will answer the coming calls, in order (a provider with no answers left
   * fails the request); `history` records every call made.
   */
  class SearchClient {
    var outcomes: seq<ApiOutcome>
    ghost var history: seq<Exchange>

    constructor (outcomes: seq<ApiOutcome>)
      ensures this.outcomes == outcomes && history == []
    {
      this.outcomes := outcomes;
      history := [];
    }

    function NextOutcome(): ApiOutcome
      reads this
    {
      if outcomes == [] then RequestFailed else outcomes[0]
    }

    method Search(query: string, maxResults: nat) returns (videos: seq<VideoInfo>)
      modifies this
      ensures |videos| <= maxResults
      ensures Answers(old(NextOutcome()), maxResults, videos)
      ensures outcomes == if old(outcomes) == [] then [] else old(outcomes)[1..]
      ensures history == old(history) + [Exchange(query, maxResults, videos)]
    {
      var outcome := NextOutcome();
      if outcomes != [] {
        outcomes := outcomes[1..];
      }
      videos := SearchYouTubeVideos(outcome, maxResults);
      history := history + [Exchange(query, maxResults, videos)];
    }
  }

  /**
   * Since its outcomes were `outcomes` and its history `h0`, `client` has
   * made exactly the calls in `exchanges`, consumed one outcome per call and
   * answered each call with the outcome of its turn.
   */
  ghost predicate AnsweredSince(client: SearchClient, outcomes: seq<ApiOutcome>, h0: seq<Exchange>, exchanges: seq<Exchange>)
    reads client
  {
    && client.history == h0 + exchanges
    && client.outcomes == Remaining(outcomes, |exchanges|)
    && AnsweredBy(outcomes, exchanges)
  }

  /** The outcome the client answers next is the one of the next turn, and answering it leaves the rest. */
  lemma {:induction false} NextTurn(outcomes: seq<ApiOutcome>, k: nat)
    ensures (if Remaining(outcomes, k) == [] then RequestFailed else Remaining(outcomes, k)[0]) == OutcomeAt(outcomes, k)
    ensures (if Remaining(outcomes, k) == [] then [] else Remaining(outcomes, k)[1..]) == Remaining(outcomes, k + 1)
  {
    if k < |outcomes| {
      assert Remaining(outcomes, k)[1..] == outcomes[k + 1..];
    }
  }

  /** One more call, answered by the outcome of its turn, keeps `AnsweredBy`. */
  lemma {:induction false} AnsweredBySnoc(outcomes: seq<ApiOutcome>, exchanges: seq<Exchange>, e: Exchange)
    requires AnsweredBy(outcomes, exchanges)
    requires Answers(OutcomeAt(outcomes, |exchanges|), e.maxResults, e.videos)
    ensures AnsweredBy(outcomes, exchanges + [e])
  {
    forall k | 0 <= k < |exchanges| + 1
      ensures Answers(OutcomeAt(outcomes, k), (exchanges + [e])[k].maxResults, (exchanges + [e])[k].videos)
    {
      if k < |exchanges| {
        assert (exchanges + [e])[k] == exchanges[k];
      }
    }
  }
}
