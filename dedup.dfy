/**
 * Deduplication of the collected recommendations by url, keeping the first
 * one seen for each url in first-seen order, and the cut to five.
 */
module Dedup {
  import opened Schemas
  import opened Builtins

  const MaxRecommendations: nat := 5

  function UrlsOf(recs: seq<YouTubeRecommendation>): set<string> {
    set r | r in recs :: r.url
  }

  lemma UrlsOfSnoc(recs: seq<YouTubeRecommendation>, r: YouTubeRecommendation)
    ensures UrlsOf(recs + [r]) == UrlsOf(recs) + {r.url}
  {
    assert forall x :: x in recs + [r] <==> x in recs || x == r;
  }

  /** The list a first-seen scan by url keeps. */
  function UniqueByUrl(recs: seq<YouTubeRecommendation>): (u: seq<YouTubeRecommendation>)
    ensures UrlsDistinct(u)
    ensures UrlsOf(u) == UrlsOf(recs)
    ensures |u| <= |recs|
    decreases |recs|
  {
    if recs == [] then []
    else
      var n := |recs| - 1;
      var kept := UniqueByUrl(recs[..n]);
      assert recs == recs[..n] + [recs[n]];
      UrlsOfSnoc(recs[..n], recs[n]);
      if recs[n].url in UrlsOf(kept) then kept
      else
        UrlsOfSnoc(kept, recs[n]);
        kept + [recs[n]]
  }

  /** Position of the first recommendation in `recs` with this url. */
  function FirstIndexOf(recs: seq<YouTubeRecommendation>, url: string): (k: nat)
    requires url in UrlsOf(recs)
    ensures k < |recs| && recs[k].url == url
    ensures forall i :: 0 <= i < k ==> recs[i].url != url
    decreases |recs|
  {
    var n := |recs| - 1;
    assert recs == recs[..n] + [recs[n]];
    UrlsOfSnoc(recs[..n], recs[n]);
    if url in UrlsOf(recs[..n]) then FirstIndexOf(recs[..n], url) else n
  }

  /** Appending an entry moves no url's first position, and gives a new url its position. */
  lemma FirstIndexOfSnoc(prefix: seq<YouTubeRecommendation>, r: YouTubeRecommendation, url: string)
    requires url in UrlsOf(prefix) || url == r.url
    ensures url in UrlsOf(prefix + [r])
    ensures url in UrlsOf(prefix) ==> FirstIndexOf(prefix + [r], url) == FirstIndexOf(prefix, url)
    ensures url !in UrlsOf(prefix) ==> FirstIndexOf(prefix + [r], url) == |prefix|
  {
    UrlsOfSnoc(prefix, r);
    assert (prefix + [r])[..|prefix|] == prefix;
  }

  /** Every entry of `u` is the first entry of `recs` with its url. */
  ghost predicate KeepsFirstSeen(recs: seq<YouTubeRecommendation>, u: seq<YouTubeRecommendation>) {
    forall k :: 0 <= k < |u| ==> u[k].url in UrlsOf(recs) && u[k] == recs[FirstIndexOf(recs, u[k].url)]
  }

  /** The entries of `u` come in the order their urls first appear in `recs`. */
  ghost predicate InFirstSeenOrder(recs: seq<YouTubeRecommendation>, u: seq<YouTubeRecommendation>)
    requires KeepsFirstSeen(recs, u)
  {
    forall k, l :: 0 <= k < l < |u| ==> FirstIndexOf(recs, u[k].url) < FirstIndexOf(recs, u[l].url)
  }

  /** Appending an entry moves none of the first positions the shorter list's kept entries have. */
  lemma KeptEntriesStayFirst(prefix: seq<YouTubeRecommendation>, last: YouTubeRecommendation)
    requires KeepsFirstSeen(prefix, UniqueByUrl(prefix))
    ensures var kept, recs := UniqueByUrl(prefix), prefix + [last];
      forall k :: 0 <= k < |kept| ==>
        && kept[k].url in UrlsOf(recs)
        && FirstIndexOf(recs, kept[k].url) == FirstIndexOf(prefix, kept[k].url) < |prefix|
        && kept[k] == recs[FirstIndexOf(recs, kept[k].url)]
  {
    var kept, recs := UniqueByUrl(prefix), prefix + [last];
    forall k | 0 <= k < |kept|
      ensures kept[k].url in UrlsOf(recs)
      ensures FirstIndexOf(recs, kept[k].url) == FirstIndexOf(prefix, kept[k].url) < |prefix|
      ensures kept[k] == recs[FirstIndexOf(recs, kept[k].url)]
    {
      var j := FirstIndexOf(prefix, kept[k].url);
      assert kept[k] == prefix[j];
      FirstIndexOfSnoc(prefix, last, kept[k].url);
      assert prefix[j] == recs[j];
    }
  }

  /** An entry with a url not kept yet is kept, after the others. */
  lemma AppendNewUrl(prefix: seq<YouTubeRecommendation>, last: YouTubeRecommendation)
    requires KeepsFirstSeen(prefix, UniqueByUrl(prefix)) && InFirstSeenOrder(prefix, UniqueByUrl(prefix))
    requires last.url !in UrlsOf(UniqueByUrl(prefix))
    ensures var recs, u := prefix + [last], UniqueByUrl(prefix) + [last];
      KeepsFirstSeen(recs, u) && InFirstSeenOrder(recs, u)
  {
    var kept, recs := UniqueByUrl(prefix), prefix + [last];
    var u := kept + [last];
    KeptEntriesStayFirst(prefix, last);
    FirstIndexOfSnoc(prefix, last, last.url);
    forall k | 0 <= k < |u|
      ensures u[k].url in UrlsOf(recs) && u[k] == recs[FirstIndexOf(recs, u[k].url)]
    {
      if k < |kept| {
        assert u[k] == kept[k];
      } else {
        assert u[k] == last;
      }
    }
    forall k, l | 0 <= k < l < |u|
      ensures FirstIndexOf(recs, u[k].url) < FirstIndexOf(recs, u[l].url)
    {
      assert u[k] == kept[k];
      if l < |kept| {
        assert u[l] == kept[l];
      } else {
        assert u[l] == last;
      }
    }
  }

  /** An entry whose url is already kept changes nothing that was kept. */
  lemma AppendSeenUrl(prefix: seq<YouTubeRecommendation>, last: YouTubeRecommendation)
    requires KeepsFirstSeen(prefix, UniqueByUrl(prefix)) && InFirstSeenOrder(prefix, UniqueByUrl(prefix))
    ensures var recs, u := prefix + [last], UniqueByUrl(prefix);
      KeepsFirstSeen(recs, u) && InFirstSeenOrder(recs, u)
  {
    KeptEntriesStayFirst(prefix, last);
  }

  /**
   * What deduplication keeps: for each url of the input exactly one entry,
   * the first one seen with that url, and the kept entries in the order
   * their urls were first seen.
   */
  lemma {:induction false} UniqueByUrlKeepsFirstSeen(recs: seq<YouTubeRecommendation>)
    ensures KeepsFirstSeen(recs, UniqueByUrl(recs))
    ensures InFirstSeenOrder(recs, UniqueByUrl(recs))
    decreases |recs|
  {
    if recs != [] {
      var n := |recs| - 1;
      var prefix, last := recs[..n], recs[n];
      UniqueByUrlKeepsFirstSeen(prefix);
      assert recs == prefix + [last];
      if last.url !in UrlsOf(UniqueByUrl(prefix)) {
        AppendNewUrl(prefix, last);
      } else {
        AppendSeenUrl(prefix, last);
      }
    }
  }

  /** A list without duplicate urls is left as it is. */
  lemma {:induction false} UniqueByUrlOfDistinct(recs: seq<YouTubeRecommendation>)
    requires UrlsDistinct(recs)
    ensures UniqueByUrl(recs) == recs
    decreases |recs|
  {
    if recs != [] {
      var n := |recs| - 1;
      UniqueByUrlOfDistinct(recs[..n]);
      assert recs[..n] + [recs[n]] == recs;
    }
  }

  /** Deduplicate, then keep at most five. */
  function FinalRecommendations(found: seq<YouTubeRecommendation>): (r: seq<YouTubeRecommendation>)
    ensures |r| <= MaxRecommendations
    ensures UrlsDistinct(r)
    ensures r == [] <==> found == []
  {
    var u := UniqueByUrl(found);
    assert found != [] ==> found[0].url in UrlsOf(found);
    Take(u, MaxRecommendations)
  }

  /** Applying the dedup-and-cut step a second time changes nothing. */
  lemma FinalRecommendationsIdempotent(found: seq<YouTubeRecommendation>)
    ensures FinalRecommendations(FinalRecommendations(found)) == FinalRecommendations(found)
  {
    var once := FinalRecommendations(found);
    UniqueByUrlOfDistinct(once);
    TakeTwice(UniqueByUrl(found), MaxRecommendations);
  }

  /** The dedup loop of the enhancer, with its `seen_urls` set. */
  method DedupByUrl(recs: seq<YouTubeRecommendation>) returns (unique: seq<YouTubeRecommendation>)
    ensures unique == UniqueByUrl(recs)
  {
    unique := [];
    var seenUrls: set<string> := {};
    for i := 0 to |recs|
      invariant unique == UniqueByUrl(recs[..i])
      invariant seenUrls == UrlsOf(unique)
    {
      assert recs[..i + 1][..i] == recs[..i];
      if recs[i].url !in seenUrls {
        UrlsOfSnoc(unique, recs[i]);
        unique := unique + [recs[i]];
        seenUrls := seenUrls + {recs[i].url};
      }
    }
    assert recs[..|recs|] == recs;
  }
}
