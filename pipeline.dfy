/**
 * The generation request chains the two cores: the generated content's
 * recommendations become the path's placeholders, and the enhancer replaces
 * them only when its searches find something. When every search comes back
 * empty the placeholders are what is stored, so the stored list is neither
 * capped at five nor free of repeated urls.
 */
module Pipeline {
  import opened Schemas
  import opened YouTubeSearch
  import opened Dedup
  import opened Enhancer
  import opened Gemini

  /**
   * After a timeout or a failed model call, an enhancement whose searches
   * all come back empty keeps the five outage placeholders, which all share
   * one url.
   */
  lemma OutagePlaceholdersKept(topic: string, reply: ModelReply, modules: seq<Module>, exchanges: seq<Exchange>)
    requires reply.TimedOut? || reply.Failed?
    requires FollowsPlan(topic, modules, exchanges)
    requires forall k :: 0 <= k < |exchanges| ==> exchanges[k].videos == []
    ensures var placeholders := Generated(topic, reply).youtubeRecommendations.value;
      && Chosen(Gathered(topic, modules, exchanges), placeholders) == placeholders
      && |placeholders| == 5
      && !UrlsDistinct(placeholders)
  {
    var placeholders := Generated(topic, reply).youtubeRecommendations.value;
    ReplacedExactlyWhenFound(topic, modules, exchanges, placeholders);
    OutageRecommendationsRepeatUrl(topic);
  }

  /**
   * A parsed reply with at least three recommendations keeps them through
   * repair, and an enhancement whose searches all come back empty keeps
   * them too, however many there are and whatever their urls.
   */
  lemma ParsedRecommendationsKept(topic: string, c: ContentDict, modules: seq<Module>, exchanges: seq<Exchange>)
    requires HasAtLeast(c.youtubeRecommendations, MinRecommendations)
    requires FollowsPlan(topic, modules, exchanges)
    requires forall k :: 0 <= k < |exchanges| ==> exchanges[k].videos == []
    ensures var placeholders := Generated(topic, Parsed(c)).youtubeRecommendations.value;
      && placeholders == c.youtubeRecommendations.value
      && Chosen(Gathered(topic, modules, exchanges), placeholders) == placeholders
  {
    RepairedKeepsSufficientFields(topic, c);
    ReplacedExactlyWhenFound(topic, modules, exchanges, c.youtubeRecommendations.value);
  }
}
