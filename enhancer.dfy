/**
 * The recommendation enhancer, in six steps:
 *   1. the topic searches: the first two topic templates;
 *   2. the title searches: the titles of the first three modules;
 *   3. the subtopic searches: the first two subtopics of each of those modules;
 *   4. the fill search, when fewer than five recommendations were collected;
 *   5. deduplication by url and the cut to five;
 *   6. the replacement of the path's recommendations, when step 5 left any.
 *
 * Which searches are made in steps 1-3 does not depend on what the searches
 * return (a title or subtopic is marked as searched whether or not a video
 * came back), so those steps are specified by a pure plan, `SearchPlan`; the
 * fill query depends on how many recommendations were collected.
 */
module Enhancer {
  import opened Schemas
  import opened Builtins
  import opened YouTubeSearch
  import opened Dedup

  const TopicQueryCount: nat := 2
  const ModuleCount: nat := 3
  const SubtopicCount: nat := 2
  /** 2 topic queries, 1 per module for 3 modules, 1 per subtopic for 2 per module, 1 fill query. */
  const MaxSearchCalls: nat := 12

  /** A search the enhancer makes, with the keywords it gives every video the search finds. */
  datatype Query = Query(text: string, maxResults: nat, keywords: seq<string>)

  function TopicQueryTexts(topic: string): seq<string> {
    [topic + " complete tutorial", topic + " course for beginners", topic + " fundamentals"]
  }

  function TopicQuery(topic: string, text: string): Query {
    Query(text, 2, [Lower(topic), LastWord(text), "tutorial"])
  }

  /** The topic searches made: the first two templates only. */
  function TopicQueries(topic: string): seq<Query> {
    var texts := Take(TopicQueryTexts(topic), TopicQueryCount);
    seq(|texts|, i requires 0 <= i < |texts| => TopicQuery(topic, texts[i]))
  }

  /** Only the first template is ever used. */
  function ModuleQueryTexts(topic: string, title: string): seq<string> {
    [title + " explained", title + " tutorial " + topic, topic + " " + title]
  }

  function ModuleQuery(topic: string, title: string): Query {
    Query(ModuleQueryTexts(topic, title)[0], 1, [Lower(topic), Lower(title), "module"])
  }

  /** Only the first template is ever used. */
  function SubtopicQueryTexts(topic: string, subtopic: string): seq<string> {
    [subtopic + " " + topic + " tutorial", topic + " " + subtopic + " explained"]
  }

  function SubtopicQuery(topic: string, subtopic: string): Query {
    Query(SubtopicQueryTexts(topic, subtopic)[0], 1, [Lower(topic), Lower(subtopic), "concept"])
  }

  /** The fill search asks for as many videos as are missing to reach five. */
  function FillQuery(topic: string, collected: nat): Query
    requires collected < MaxRecommendations
  {
    Query(topic + " advanced tutorial", MaxRecommendations - collected, [Lower(topic), "advanced", "tutorial"])
  }

  lemma LastWordOfSuffixed(topic: string, middle: string, word: string)
    requires IsWord(word)
    ensures LastWord(topic + middle + " " + word) == word
  {
    assert topic + middle + " " + word == (topic + middle) + " " + word;
    LastWordAfterSpace(topic + middle, word);
  }

  /** The fixed last words of the two searched topic templates. */
  lemma TemplateWordsAreWords()
    ensures IsWord("tutorial") && IsWord("beginners")
  {
  }

  /** The keyword a topic search gives its videos is the last word of its query. */
  lemma TopicQueriesSpelledOut(topic: string)
    ensures TopicQueries(topic) == [
      Query(topic + " complete tutorial", 2, [Lower(topic), "tutorial", "tutorial"]),
      Query(topic + " course for beginners", 2, [Lower(topic), "beginners", "tutorial"])]
  {
    var texts := Take(TopicQueryTexts(topic), TopicQueryCount);
    assert texts == [topic + " complete tutorial", topic + " course for beginners"];
    TemplateWordsAreWords();
    LastWordOfSuffixed(topic, " complete", "tutorial");
    assert topic + " complete" + " " + "tutorial" == texts[0];
    LastWordOfSuffixed(topic, " course for", "beginners");
    assert topic + " course for" + " " + "beginners" == texts[1];
  }

  // ---------------------------------------------------------------------
  // The search plan of steps 1-3

  /** The searches made so far and the `searched_keywords` set. */
  datatype Plan = Plan(queries: seq<Query>, searched: set<string>)

  /** A title or subtopic is searched once: not when empty, not when already searched. */
  function KeywordStep(p: Plan, key: string, q: Query): Plan {
    if key != "" && key !in p.searched then Plan(p.queries + [q], p.searched + {key}) else p
  }

  function SubtopicsWalk(topic: string, p: Plan, subtopics: seq<string>): Plan
    decreases |subtopics|
  {
    if subtopics == [] then p
    else
      var n := |subtopics| - 1;
      KeywordStep(SubtopicsWalk(topic, p, subtopics[..n]), subtopics[n], SubtopicQuery(topic, subtopics[n]))
  }

  function ModuleStep(topic: string, p: Plan, m: Module): Plan {
    var afterTitle := KeywordStep(p, m.title, ModuleQuery(topic, m.title));
    SubtopicsWalk(topic, afterTitle, Take(m.subtopics, SubtopicCount))
  }

  function ModulesWalk(topic: string, p: Plan, modules: seq<Module>): Plan
    decreases |modules|
  {
    if modules == [] then p
    else
      var n := |modules| - 1;
      ModuleStep(topic, ModulesWalk(topic, p, modules[..n]), modules[n])
  }

  /** The walk over one more module is one more module step. */
  lemma ModulesWalkSnoc(topic: string, p: Plan, modules: seq<Module>, i: nat)
    requires i < |modules|
    ensures ModulesWalk(topic, p, modules[..i + 1]) == ModuleStep(topic, ModulesWalk(topic, p, modules[..i]), modules[i])
  {
    assert modules[..i + 1][..i] == modules[..i];
  }

  /** The searches of steps 1-3, in the order they are made, and the final `searched_keywords`. */
  function SearchPlan(topic: string, modules: seq<Module>): Plan {
    ModulesWalk(topic, Plan(TopicQueries(topic), {}), Take(modules, ModuleCount))
  }

  function KeySet(keys: seq<string>): set<string> {
    set k | k in keys
  }

  lemma KeySetSnoc(keys: seq<string>, k: string)
    ensures KeySet(keys + [k]) == KeySet(keys) + {k}
  {
    assert forall x :: x in keys + [k] <==> x in keys || x == k;
  }

  /** The non-empty titles and subtopics the enhancer looks at in one module. */
  function ModuleKeys(m: Module): set<string> {
    ({m.title} + KeySet(Take(m.subtopics, SubtopicCount))) - {""}
  }

  function ModulesKeys(modules: seq<Module>): set<string>
    decreases |modules|
  {
    if modules == [] then {}
    else ModulesKeys(modules[..|modules| - 1]) + ModuleKeys(modules[|modules| - 1])
  }

  /** The non-empty titles and subtopics the enhancer looks at. */
  function ConsideredKeys(modules: seq<Module>): set<string> {
    ModulesKeys(Take(modules, ModuleCount))
  }

  /**
   * One search per newly marked key: the plan grows by exactly as many
   * searches as keys are added, and never by the empty key.
   */
  ghost predicate GrowsWithKeys(p: Plan, r: Plan, added: set<string>) {
    && "" !in r.searched
    && r.searched == p.searched + added
    && p.queries <= r.queries
    && |r.queries| - |p.queries| == |r.searched| - |p.searched|
  }

  lemma GrowsTransitively(p: Plan, mid: Plan, r: Plan, a: set<string>, b: set<string>)
    requires GrowsWithKeys(p, mid, a) && GrowsWithKeys(mid, r, b)
    ensures GrowsWithKeys(p, r, a + b)
  {
  }

  lemma KeywordStepGrows(p: Plan, key: string, q: Query)
    requires "" !in p.searched
    ensures GrowsWithKeys(p, KeywordStep(p, key, q), {key} - {""})
    ensures |KeywordStep(p, key, q).queries| <= |p.queries| + 1
  {
  }

  lemma SubtopicsWalkSnoc(topic: string, p: Plan, subtopics: seq<string>)
    requires subtopics != []
    ensures var n := |subtopics| - 1;
      SubtopicsWalk(topic, p, subtopics) ==
      KeywordStep(SubtopicsWalk(topic, p, subtopics[..n]), subtopics[n], SubtopicQuery(topic, subtopics[n]))
  {
  }

  /** A walk that grew with the keys of `keys`, followed by a keyword step for `k`, grew with the keys of `keys + [k]`. */
  lemma KeywordStepAfterWalk(p: Plan, mid: Plan, keys: seq<string>, k: string, q: Query)
    requires GrowsWithKeys(p, mid, KeySet(keys) - {""}) && |mid.queries| <= |p.queries| + |keys|
    ensures GrowsWithKeys(p, KeywordStep(mid, k, q), KeySet(keys + [k]) - {""})
    ensures |KeywordStep(mid, k, q).queries| <= |p.queries| + |keys + [k]|
  {
    KeywordStepGrows(mid, k, q);
    GrowsTransitively(p, mid, KeywordStep(mid, k, q), KeySet(keys) - {""}, {k} - {""});
    KeySetSnoc(keys, k);
  }

  lemma {:induction false} SubtopicsWalkGrows(topic: string, p: Plan, subtopics: seq<string>)
    requires "" !in p.searched
    ensures GrowsWithKeys(p, SubtopicsWalk(topic, p, subtopics), KeySet(subtopics) - {""})
    ensures |SubtopicsWalk(topic, p, subtopics).queries| <= |p.queries| + |subtopics|
    decreases |subtopics|
  {
    if subtopics == [] {
      assert KeySet(subtopics) == {};
    } else {
      var n := |subtopics| - 1;
      SubtopicsWalkSnoc(topic, p, subtopics);
      SubtopicsWalkGrows(topic, p, subtopics[..n]);
      KeywordStepAfterWalk(p, SubtopicsWalk(topic, p, subtopics[..n]), subtopics[..n], subtopics[n], SubtopicQuery(topic, subtopics[n]));
      assert subtopics[..n] + [subtopics[n]] == subtopics;
    }
  }

  lemma ModuleStepGrows(topic: string, p: Plan, m: Module)
    requires "" !in p.searched
    ensures GrowsWithKeys(p, ModuleStep(topic, p, m), ModuleKeys(m))
    ensures |ModuleStep(topic, p, m).queries| <= |p.queries| + 1 + SubtopicCount
  {
    var afterTitle := KeywordStep(p, m.title, ModuleQuery(topic, m.title));
    var subtopics := Take(m.subtopics, SubtopicCount);
    KeywordStepGrows(p, m.title, ModuleQuery(topic, m.title));
    SubtopicsWalkGrows(topic, afterTitle, subtopics);
    GrowsTransitively(p, afterTitle, ModuleStep(topic, p, m), {m.title} - {""}, KeySet(subtopics) - {""});
  }

  lemma {:induction false} ModulesWalkGrows(topic: string, p: Plan, modules: seq<Module>)
    requires "" !in p.searched
    ensures GrowsWithKeys(p, ModulesWalk(topic, p, modules), ModulesKeys(modules))
    ensures |ModulesWalk(topic, p, modules).queries| <= |p.queries| + (1 + SubtopicCount) * |modules|
    decreases |modules|
  {
    if modules != [] {
      var n := |modules| - 1;
      var mid := ModulesWalk(topic, p, modules[..n]);
      var r := ModuleStep(topic, mid, modules[n]);
      ModulesWalkSnoc(topic, p, modules, n);
      assert modules[..n + 1] == modules;
      ModulesWalkGrows(topic, p, modules[..n]);
      ModuleStepGrows(topic, mid, modules[n]);
      GrowsTransitively(p, mid, r, ModulesKeys(modules[..n]), ModuleKeys(modules[n]));
      assert (1 + SubtopicCount) * |modules| == (1 + SubtopicCount) * n + (1 + SubtopicCount);
    }
  }

  /**
   * Steps 1-3 make the two topic searches and then exactly one search per
   * distinct non-empty title or subtopic among the first two subtopics of
   * the first three modules, and mark exactly those keys; at most 11
   * searches in all.
   */
  lemma SearchPlanSearchesEachKeyOnce(topic: string, modules: seq<Module>)
    ensures var p := SearchPlan(topic, modules);
      && p.searched == ConsideredKeys(modules)
      && "" !in p.searched
      && TopicQueries(topic) <= p.queries
      && |p.queries| == TopicQueryCount + |p.searched|
      && |p.queries| <= TopicQueryCount + ModuleCount * (1 + SubtopicCount)
  {
    ModulesWalkGrows(topic, Plan(TopicQueries(topic), {}), Take(modules, ModuleCount));
  }

  // ---------------------------------------------------------------------
  // What the searches collect

  /** The recommendations made from the videos of one search. */
  function Tag(videos: seq<VideoInfo>, keywords: seq<string>): seq<YouTubeRecommendation> {
    seq(|videos|, i requires 0 <= i < |videos| => YouTubeRecommendation(videos[i].title, videos[i].url, keywords))
  }

  /** The `for video in videos: enhanced_recommendations.append(...)` loops. */
  method AppendTagged(recs: seq<YouTubeRecommendation>, videos: seq<VideoInfo>, keywords: seq<string>)
    returns (r: seq<YouTubeRecommendation>)
    ensures r == recs + Tag(videos, keywords)
  {
    r := recs;
    for i := 0 to |videos|
      invariant r == recs + Tag(videos[..i], keywords)
    {
      r := r + [YouTubeRecommendation(videos[i].title, videos[i].url, keywords)];
    }
    assert videos[..|videos|] == videos;
  }

  /** The searches in `queries` were made, in order, as the calls in `exchanges`. */
  predicate Issued(queries: seq<Query>, exchanges: seq<Exchange>) {
    && |queries| == |exchanges|
    && forall i :: 0 <= i < |queries| ==>
         exchanges[i].query == queries[i].text && exchanges[i].maxResults == queries[i].maxResults
  }

  /** The recommendations collected from these searches, in order. */
  function Collected(queries: seq<Query>, exchanges: seq<Exchange>): seq<YouTubeRecommendation>
    requires |queries| == |exchanges|
    decreases |queries|
  {
    if queries == [] then []
    else
      var n := |queries| - 1;
      Collected(queries[..n], exchanges[..n]) + Tag(exchanges[n].videos, queries[n].keywords)
  }

  lemma CollectedSnoc(queries: seq<Query>, exchanges: seq<Exchange>, q: Query, e: Exchange)
    requires Issued(queries, exchanges)
    requires e.query == q.text && e.maxResults == q.maxResults
    ensures Issued(queries + [q], exchanges + [e])
    ensures Collected(queries + [q], exchanges + [e]) == Collected(queries, exchanges) + Tag(e.videos, q.keywords)
  {
    assert (queries + [q])[..|queries|] == queries;
    assert (exchanges + [e])[..|exchanges|] == exchanges;
  }

  /** Nothing is collected exactly when every search came back empty. */
  lemma {:induction false} CollectedEmptyIff(queries: seq<Query>, exchanges: seq<Exchange>)
    requires |queries| == |exchanges|
    ensures Collected(queries, exchanges) == [] <==> forall k :: 0 <= k < |exchanges| ==> exchanges[k].videos == []
    decreases |queries|
  {
    if queries != [] {
      var n := |queries| - 1;
      CollectedEmptyIff(queries[..n], exchanges[..n]);
      assert forall k :: 0 <= k < n ==> exchanges[..n][k] == exchanges[k];
      assert |Tag(exchanges[n].videos, queries[n].keywords)| == |exchanges[n].videos|;
    }
  }

  // ---------------------------------------------------------------------
  // The whole enhancement

  /**
   * The calls in `exchanges` are those the enhancer makes for this topic and
   * these modules: the planned searches, then the fill search exactly when
   * fewer than five recommendations were collected, asking for the
   * shortfall.
   */
  ghost predicate FollowsPlan(topic: string, modules: seq<Module>, exchanges: seq<Exchange>) {
    var planned := SearchPlan(topic, modules).queries;
    var n := |planned|;
    && n <= |exchanges|
    && Issued(planned, exchanges[..n])
    && var collected := |Collected(planned, exchanges[..n])|;
       if collected < MaxRecommendations then Issued(planned + [FillQuery(topic, collected)], exchanges)
       else |exchanges| == n
  }

  ghost function AllQueries(topic: string, modules: seq<Module>, exchanges: seq<Exchange>): seq<Query>
    requires FollowsPlan(topic, modules, exchanges)
  {
    var planned := SearchPlan(topic, modules).queries;
    var collected := |Collected(planned, exchanges[..|planned|])|;
    if collected < MaxRecommendations then planned + [FillQuery(topic, collected)] else planned
  }

  /** Everything the searches collected, before deduplication. */
  ghost function Gathered(topic: string, modules: seq<Module>, exchanges: seq<Exchange>): seq<YouTubeRecommendation>
    requires FollowsPlan(topic, modules, exchanges)
  {
    Collected(AllQueries(topic, modules, exchanges), exchanges)
  }

  /** The path's recommendations afterwards: the deduplicated cut if non-empty, else the ones it had. */
  function Chosen(found: seq<YouTubeRecommendation>, existing: seq<YouTubeRecommendation>): seq<YouTubeRecommendation> {
    var final := FinalRecommendations(found);
    if final != [] then final else existing
  }

  /** At most twelve searches per enhancement. */
  lemma CallBudget(topic: string, modules: seq<Module>, exchanges: seq<Exchange>)
    requires FollowsPlan(topic, modules, exchanges)
    ensures |exchanges| <= MaxSearchCalls
  {
    SearchPlanSearchesEachKeyOnce(topic, modules);
  }

  /**
   * When every search comes back empty the path keeps its recommendations;
   * otherwise they are replaced by one to five recommendations with
   * distinct urls.
   */
  lemma ReplacedExactlyWhenFound(topic: string, modules: seq<Module>, exchanges: seq<Exchange>,
                                 existing: seq<YouTubeRecommendation>)
    requires FollowsPlan(topic, modules, exchanges)
    ensures (forall k :: 0 <= k < |exchanges| ==> exchanges[k].videos == []) ==>
      Chosen(Gathered(topic, modules, exchanges), existing) == existing
    ensures (exists k :: 0 <= k < |exchanges| && exchanges[k].videos != []) ==>
      var r := Chosen(Gathered(topic, modules, exchanges), existing);
      && r == FinalRecommendations(Gathered(topic, modules, exchanges))
      && 1 <= |r| <= MaxRecommendations
      && UrlsDistinct(r)
  {
    CollectedEmptyIff(AllQueries(topic, modules, exchanges), exchanges);
  }

  /**
   * With a search provider that never answers successfully (no API key, a
   * network failure, an error status or a body without items on every
   * call), the path keeps the recommendations it had.
   */
  lemma {:induction false} NoSuccessKeepsExisting(topic: string, modules: seq<Module>, outcomes: seq<ApiOutcome>,
                                                  exchanges: seq<Exchange>, existing: seq<YouTubeRecommendation>)
    requires FollowsPlan(topic, modules, exchanges)
    requires AnsweredBy(outcomes, exchanges)
    requires forall k :: 0 <= k < |outcomes| ==> !Succeeded(outcomes[k])
    ensures Chosen(Gathered(topic, modules, exchanges), existing) == existing
  {
    NoSuccessNoVideos(outcomes, exchanges);
    ReplacedExactlyWhenFound(topic, modules, exchanges, existing);
  }

  /**
   * One search and the appends of its videos, as every step of the
   * enhancer does it; `queries` and `exchanges` are the searches made so far.
   */
  method RunQuery(client: SearchClient, q: Query, enhanced: seq<YouTubeRecommendation>,
                  ghost o0: seq<ApiOutcome>, ghost h0: seq<Exchange>, ghost queries: seq<Query>, ghost exchanges: seq<Exchange>)
    returns (enhanced': seq<YouTubeRecommendation>, ghost queries': seq<Query>, ghost exchanges': seq<Exchange>)
    requires AnsweredSince(client, o0, h0, exchanges)
    requires Issued(queries, exchanges) && enhanced == Collected(queries, exchanges)
    modifies client
    ensures AnsweredSince(client, o0, h0, exchanges')
    ensures queries' == queries + [q] && |exchanges'| == |exchanges| + 1 && exchanges <= exchanges'
    ensures Issued(queries', exchanges') && enhanced' == Collected(queries', exchanges')
  {
    NextTurn(o0, |exchanges|);
    var videos := client.Search(q.text, q.maxResults);
    enhanced' := AppendTagged(enhanced, videos, q.keywords);
    ghost var e := Exchange(q.text, q.maxResults, videos);
    AnsweredBySnoc(o0, exchanges, e);
    CollectedSnoc(queries, exchanges, q, e);
    queries', exchanges' := queries + [q], exchanges + [e];
  }

  /**
   * A title or subtopic search: made, and the key marked, only when the key
   * is non-empty and not yet in `searched_keywords`.
   */
  method SearchKeyword(client: SearchClient, key: string, q: Query, searched: set<string>,
                       enhanced: seq<YouTubeRecommendation>,
                       ghost o0: seq<ApiOutcome>, ghost h0: seq<Exchange>, ghost queries: seq<Query>, ghost exchanges: seq<Exchange>)
    returns (searched': set<string>, enhanced': seq<YouTubeRecommendation>,
             ghost queries': seq<Query>, ghost exchanges': seq<Exchange>)
    requires AnsweredSince(client, o0, h0, exchanges)
    requires Issued(queries, exchanges) && enhanced == Collected(queries, exchanges)
    modifies client
    ensures AnsweredSince(client, o0, h0, exchanges')
    ensures Plan(queries', searched') == KeywordStep(Plan(queries, searched), key, q)
    ensures Issued(queries', exchanges') && enhanced' == Collected(queries', exchanges')
  {
    searched', enhanced', queries', exchanges' := searched, enhanced, queries, exchanges;
    if key != "" && key !in searched {
      enhanced', queries', exchanges' := RunQuery(client, q, enhanced, o0, h0, queries, exchanges);
      searched' := searched + {key};
    }
  }

  /** Step 3 for one module: its first two subtopics. */
  method SearchSubtopics(topic: string, subtopics: seq<string>, client: SearchClient, searched: set<string>,
                         enhanced: seq<YouTubeRecommendation>,
                         ghost o0: seq<ApiOutcome>, ghost h0: seq<Exchange>, ghost queries: seq<Query>, ghost exchanges: seq<Exchange>)
    returns (searched': set<string>, enhanced': seq<YouTubeRecommendation>,
             ghost queries': seq<Query>, ghost exchanges': seq<Exchange>)
    requires AnsweredSince(client, o0, h0, exchanges)
    requires Issued(queries, exchanges) && enhanced == Collected(queries, exchanges)
    modifies client
    ensures AnsweredSince(client, o0, h0, exchanges')
    ensures Plan(queries', searched') == SubtopicsWalk(topic, Plan(queries, searched), subtopics)
    ensures Issued(queries', exchanges') && enhanced' == Collected(queries', exchanges')
  {
    searched', enhanced', queries', exchanges' := searched, enhanced, queries, exchanges;
    for j := 0 to |subtopics|
      invariant AnsweredSince(client, o0, h0, exchanges')
      invariant Plan(queries', searched') == SubtopicsWalk(topic, Plan(queries, searched), subtopics[..j])
      invariant Issued(queries', exchanges') && enhanced' == Collected(queries', exchanges')
    {
      var subtopic := subtopics[j];
      searched', enhanced', queries', exchanges' :=
        SearchKeyword(client, subtopic, SubtopicQuery(topic, subtopic), searched', enhanced', o0, h0, queries', exchanges');
      assert subtopics[..j + 1][..j] == subtopics[..j];
    }
    assert subtopics[..|subtopics|] == subtopics;
  }

  /** Step 1: the first two topic templates, two results each. */
  method SearchTopic(topic: string, client: SearchClient, ghost o0: seq<ApiOutcome>, ghost h0: seq<Exchange>)
    returns (enhanced: seq<YouTubeRecommendation>, ghost queries: seq<Query>, ghost exchanges: seq<Exchange>)
    requires AnsweredSince(client, o0, h0, [])
    modifies client
    ensures AnsweredSince(client, o0, h0, exchanges)
    ensures queries == TopicQueries(topic)
    ensures Issued(queries, exchanges) && enhanced == Collected(queries, exchanges)
  {
    enhanced, queries, exchanges := [], [], [];
    var topicQueries := Take(TopicQueryTexts(topic), TopicQueryCount);
    for i := 0 to |topicQueries|
      invariant AnsweredSince(client, o0, h0, exchanges)
      invariant queries == TopicQueries(topic)[..i]
      invariant Issued(queries, exchanges)
      invariant enhanced == Collected(queries, exchanges)
    {
      enhanced, queries, exchanges := RunQuery(client, TopicQuery(topic, topicQueries[i]), enhanced, o0, h0, queries, exchanges);
    }
  }

  /** Steps 2 and 3 for one module: its title, then its first two subtopics. */
  method SearchModule(topic: string, m: Module, client: SearchClient, searched: set<string>,
                      enhanced: seq<YouTubeRecommendation>,
                      ghost o0: seq<ApiOutcome>, ghost h0: seq<Exchange>, ghost queries: seq<Query>, ghost exchanges: seq<Exchange>)
    returns (searched': set<string>, enhanced': seq<YouTubeRecommendation>,
             ghost queries': seq<Query>, ghost exchanges': seq<Exchange>)
    requires AnsweredSince(client, o0, h0, exchanges)
    requires Issued(queries, exchanges) && enhanced == Collected(queries, exchanges)
    modifies client
    ensures AnsweredSince(client, o0, h0, exchanges')
    ensures Plan(queries', searched') == ModuleStep(topic, Plan(queries, searched), m)
    ensures Issued(queries', exchanges') && enhanced' == Collected(queries', exchanges')
  {
    searched', enhanced', queries', exchanges' :=
      SearchKeyword(client, m.title, ModuleQuery(topic, m.title), searched, enhanced, o0, h0, queries, exchanges);
    searched', enhanced', queries', exchanges' :=
      SearchSubtopics(topic, Take(m.subtopics, SubtopicCount), client, searched', enhanced', o0, h0, queries', exchanges');
  }

  /**
   * Steps 2 and 3: a search per module title and per subtopic among the
   * first two of each of the first three modules, skipping empty and
   * already searched ones (`searched_keywords` is shared by titles and
   * subtopics).
   */
  method SearchModules(topic: string, allModules: seq<Module>, client: SearchClient,
                       enhanced: seq<YouTubeRecommendation>,
                       ghost o0: seq<ApiOutcome>, ghost h0: seq<Exchange>, ghost queries: seq<Query>, ghost exchanges: seq<Exchange>)
    returns (enhanced': seq<YouTubeRecommendation>, ghost queries': seq<Query>, ghost exchanges': seq<Exchange>)
    requires AnsweredSince(client, o0, h0, exchanges)
    requires Issued(queries, exchanges) && enhanced == Collected(queries, exchanges)
    modifies client
    ensures AnsweredSince(client, o0, h0, exchanges')
    ensures queries' == ModulesWalk(topic, Plan(queries, {}), Take(allModules, ModuleCount)).queries
    ensures Issued(queries', exchanges') && enhanced' == Collected(queries', exchanges')
  {
    ghost var start := Plan(queries, {});
    enhanced', queries', exchanges' := enhanced, queries, exchanges;
    var searchedKeywords: set<string> := {};
    var modules := Take(allModules, ModuleCount);
    for i := 0 to |modules|
      invariant AnsweredSince(client, o0, h0, exchanges')
      invariant Plan(queries', searchedKeywords) == ModulesWalk(topic, start, modules[..i])
      invariant Issued(queries', exchanges') && enhanced' == Collected(queries', exchanges')
    {
      ModulesWalkSnoc(topic, start, modules, i);
      searchedKeywords, enhanced', queries', exchanges' :=
        SearchModule(topic, modules[i], client, searchedKeywords, enhanced', o0, h0, queries', exchanges');
    }
    assert modules[..|modules|] == modules;
  }

  /**
   * Steps 1-4 of the enhancer: the searches, in order, and everything they
   * collect before deduplication.
   */
  method CollectRecommendations(topic: string, modules: seq<Module>, client: SearchClient)
    returns (enhanced: seq<YouTubeRecommendation>, ghost exchanges: seq<Exchange>)
    modifies client
    ensures client.history == old(client.history) + exchanges
    ensures client.outcomes == Remaining(old(client.outcomes), |exchanges|)
    ensures AnsweredBy(old(client.outcomes), exchanges)
    ensures FollowsPlan(topic, modules, exchanges)
    ensures enhanced == Gathered(topic, modules, exchanges)
  {
    ghost var o0, h0 := client.outcomes, client.history;
    ghost var queries: seq<Query>;

    // Step 1: the topic searches.
    enhanced, queries, exchanges := SearchTopic(topic, client, o0, h0);

    // Steps 2 and 3: module titles and their first subtopics.
    enhanced, queries, exchanges := SearchModules(topic, modules, client, enhanced, o0, h0, queries, exchanges);
    assert queries == SearchPlan(topic, modules).queries;
    ghost var planned := queries;
    ghost var plannedExchanges := exchanges;

    // Step 4: the fill search.
    if |enhanced| < MaxRecommendations {
      enhanced, queries, exchanges := RunQuery(client, FillQuery(topic, |enhanced|), enhanced, o0, h0, queries, exchanges);
    }
    assert exchanges[..|planned|] == plannedExchanges;
    assert AllQueries(topic, modules, exchanges) == queries;
  }

  /**
   * enhance_learning_path_with_youtube. The searches go through `client`;
   * only the path's recommendations change.
   */
  method EnhanceLearningPathWithYouTube(topic: string, path: LearningPath, client: SearchClient)
    modifies path`youtubeRecommendations, client
    ensures path.topic == old(path.topic) && path.modules == old(path.modules)
    ensures path.quizQuestions == old(path.quizQuestions)
    ensures old(client.history) <= client.history
    ensures client.outcomes == Remaining(old(client.outcomes), |client.history| - |old(client.history)|)
    ensures AnsweredBy(old(client.outcomes), client.history[|old(client.history)|..])
    ensures FollowsPlan(topic, path.modules, client.history[|old(client.history)|..])
    ensures path.youtubeRecommendations ==
      Chosen(Gathered(topic, path.modules, client.history[|old(client.history)|..]), old(path.youtubeRecommendations))
  {
    var enhanced, exchanges := CollectRecommendations(topic, path.modules, client);
    assert client.history[|old(client.history)|..] == exchanges;

    // Steps 5 and 6: deduplicate, keep five, replace only when something was found.
    var unique := DedupByUrl(enhanced);
    var finalRecommendations := Take(unique, MaxRecommendations);
    assert finalRecommendations == FinalRecommendations(enhanced);
    if finalRecommendations != [] {
      path.youtubeRecommendations := finalRecommendations;
    }
  }
}
