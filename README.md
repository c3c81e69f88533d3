# Learning path generation: recommendation enhancer and content repair

A Dafny model of the two pieces of logic in the learning path service.

- **The recommendation enhancer** (`youtube_service.py`). It works in six steps, numbered as in the `Enhancer` module's comment:
  1. two searches on the topic;
  2. one search for each of the first three module titles;
  3. one search for each of the first two subtopics of each of those modules;
  4. a fill search when fewer than five recommendations were collected;
  5. deduplication by url in first-seen order, and the cut to five;
  6. replacement of the path's placeholder recommendations, only when the cut list is non-empty.

  Titles and subtopics share one `searched_keywords` set. An empty key or one already in the set is skipped. A key is marked searched whether or not its search found anything.
- **The search client's result shaping** (`search_youtube_videos`). It keeps at most `max_results` items in provider order, builds watch urls, and cuts descriptions over 200 characters to 200 followed by `...`. Every failure gives the empty list.
- **Content generation** (`gemini_service.py`):
  - The repair block replaces a field that is missing or below its minimum with fixed content. The minimums are 2 modules, 3 recommendations and 5 quiz questions.
  - When the reply holds no JSON object, a small default is repaired instead.
  - A timeout or any other failure gives a fixed outage fallback.

## Files and structure

- `schemas.dfy` (module `Schemas`): the records and the `LearningPath` class, whose recommendations the enhancer replaces in place.
- `builtins.dfy` (module `Builtins`): models `s[:n]`, `str.lower()` and `str.split()[-1]`.
- `youtube_search.dfy` (module `YouTubeSearch`):
  - `ShapeResults`, the item loop;
  - `SearchYouTubeVideos`, the status and failure handling;
  - the `SearchClient` class through which the enhancer searches.

  The HTTP request and the environment are an input, `ApiOutcome`. The client holds the outcomes of the coming requests and a ghost `history` of every call made. `AnsweredBy` ties each call to the outcome of its turn.
- `dedup.dfy` (module `Dedup`): the specification `UniqueByUrl` of the `seen_urls` loop, the loop itself (`DedupByUrl`), and the cut to five.
- `enhancer.dfy` (module `Enhancer`):
  - The searches of steps 1-3 do not depend on what the searches return, so they are a pure plan, `SearchPlan`.
  - `FollowsPlan` states which calls an enhancement makes, including the fill search.
  - The method `EnhanceLearningPathWithYouTube` and its helper methods are proved to make exactly those calls. They are also proved to leave the path holding `Chosen(Gathered(...), old recommendations)`.
- `gemini.dfy` (module `Gemini`):
  - the fixed contents;
  - `Repaired`, which specifies the repair block;
  - the `Content` class, whose `Repair` method updates the dictionary in place;
  - `GenerateLearningPathContent`, with the model's reply as an input `ModelReply`.
- `pipeline.dfy` (module `Pipeline`): how the generator's recommendations fare through an enhancement that finds nothing.

## Model

| member | source | states |
|---|---|---|
| `Builtins.Take` | youtube_service.py:103 | slicing to `n` gives the first `min(len, n)` elements, a prefix of the list |
| `Builtins.Lower` | youtube_service.py:107 | lower-casing keeps the length, leaves no upper-case letter and changes no other character |
| `Builtins.LowerUsesAlphabet` | youtube_service.py:107 | lower-casing maps each upper-case letter to the letter at the same place in the lower-case alphabet `a`-`z` |
| `Builtins.LastWordAfterSpace` | youtube_service.py:107 | the last whitespace-separated word of `t + " " + w` is `w`, for any `t` and any word `w` |
| `YouTubeSearch.ShortenDescription` | youtube_service.py:61 | a description of at most 200 characters is kept; a longer one becomes its first 200 characters followed by `...` (203 in all) |
| `YouTubeSearch.ShapeResults` | youtube_service.py:57-69 | at most `max_results` videos, each the normalised form of the item at its position among the first `max_results` items; none at all when one of those items lacks a key the loop reads |
| `YouTubeSearch.SearchYouTubeVideos` | youtube_service.py:19-76 | a missing key, a status other than 200, a body that is not JSON or a raised request give `[]`; status 200 gives the shaped items, with a missing `items` key read as no items; never more than `max_results` |
| `YouTubeSearch.SearchClient.Search` | youtube_service.py:50-76 | one search call: its answer is the client's answer to the next API outcome, that outcome is consumed, and the call is appended to the history |
| `YouTubeSearch.AnswersBounded` | youtube_service.py:57-76 | a call's answer has at most `max_results` videos, and none when the request did not succeed |
| `YouTubeSearch.NoSuccessNoVideos` | youtube_service.py:19-76 | when no outcome succeeds, every call answered by those outcomes came back empty |
| `Dedup.UniqueByUrl` | youtube_service.py:167-174 | the first-seen scan keeps a list with pairwise distinct urls, the same set of urls as the input, and no more entries than the input |
| `Dedup.UniqueByUrlKeepsFirstSeen` | youtube_service.py:171-174 | each kept entry is the first entry of the input with its url, and the kept entries come in the order their urls first appear |
| `Dedup.UniqueByUrlOfDistinct` | youtube_service.py:171-174 | a list whose urls are already distinct passes through deduplication unchanged |
| `Dedup.FinalRecommendations` | youtube_service.py:176-177 | dedup then cut gives at most five entries with distinct urls, empty exactly when nothing was collected |
| `Dedup.FinalRecommendationsIdempotent` | youtube_service.py:167-177 | applying dedup-and-cut to its own result changes nothing |
| `Dedup.DedupByUrl` | youtube_service.py:167-174 | the loop with its `seen_urls` set computes `UniqueByUrl` |
| `Enhancer.TopicQueriesSpelledOut` | youtube_service.py:97-112 | only the first two topic templates are searched, for 2 results each; their videos get the keywords `[lower(topic), "tutorial", "tutorial"]` and `[lower(topic), "beginners", "tutorial"]` |
| `Enhancer.SearchPlanSearchesEachKeyOnce` | youtube_service.py:114-154 | the topic, title and subtopic searches (steps 1-3) mark exactly the distinct non-empty titles and subtopics of the first three modules (two subtopics each), never the empty key, and make one search per marked key after the two topic searches: at most 11 |
| `Enhancer.CallBudget` | youtube_service.py:96-165 | an enhancement makes at most 12 search calls |
| `Enhancer.ReplacedExactlyWhenFound` | youtube_service.py:176-184 | when every search came back empty the path keeps its recommendations; otherwise they become the dedup-and-cut list, with 1 to 5 entries and distinct urls |
| `Enhancer.NoSuccessKeepsExisting` | youtube_service.py:19-184 | with a provider none of whose answers succeeds (no key, network failure, error status), the path keeps its recommendations |
| `Enhancer.AppendTagged` | youtube_service.py:105-112 | the append loop adds one recommendation per video, in order, with the video's title and url and the search's keywords |
| `Enhancer.RunQuery` | youtube_service.py:104-112 | one search and its appends: the call is recorded, answered by the outcome of its turn, and the collected list grows by that search's tagged videos |
| `Enhancer.SearchTopic` | youtube_service.py:96-112 | the topic loop makes the two topic searches of the plan, in order, and collects their tagged videos |
| `Enhancer.SearchKeyword` | youtube_service.py:117-134 | a title or subtopic is searched and marked only when it is non-empty and not yet in `searched_keywords` |
| `Enhancer.SearchSubtopics` | youtube_service.py:136-154 | the subtopic loop makes the searches the plan gives for the first two subtopics, with the shared marked set |
| `Enhancer.SearchModule` | youtube_service.py:116-154 | one module's title search, then its subtopic searches, as the plan's step for that module gives them |
| `Enhancer.SearchModules` | youtube_service.py:114-154 | the title and subtopic searches (steps 2 and 3) make exactly the searches the plan walk over the first three modules gives, with one marked set shared by all modules |
| `Enhancer.CollectRecommendations` | youtube_service.py:96-165 | the calls made are the plan, then `"{topic} advanced tutorial"` for `5 - count` results exactly when fewer than five were collected; each call is answered by the outcome of its turn, and one outcome is consumed per call; the collected list is what those calls returned, tagged, in order |
| `Enhancer.EnhanceLearningPathWithYouTube` | youtube_service.py:78-186 | the calls follow the plan, each answered by the outcome of its turn, one outcome consumed per call; topic, modules and quiz are unchanged; the recommendations become the dedup-and-cut list when it is non-empty, else stay as they were |
| `Gemini.RepairModules` | gemini_service.py:172-186 | three modules titled `Foundations of T`, `Intermediate T` and `Advanced T`, five subtopics each |
| `Gemini.FixedQuizzesAnswerable` | gemini_service.py:217-269 | the fixed quizzes have ten questions, each with four options among which is its correct answer |
| `Gemini.RepairRecommendationsDistinct` | gemini_service.py:188-215 | the five replacement recommendations have pairwise distinct urls |
| `Gemini.ParseFailureDefault` | gemini_service.py:141-169 | the default for a reply without JSON has the modules `Introduction to T` and `Intermediate T`, one recommendation and one answerable question |
| `Gemini.OutageFallback` | gemini_service.py:276-370 | three modules of five subtopics, five recommendations all with url `https://youtube.com`, ten answerable questions |
| `Gemini.RepairedMeetsMinimums` | gemini_service.py:171-271 | after repair every field is present with at least 2 modules, 3 recommendations and 5 questions |
| `Gemini.RepairedKeepsSufficientFields` | gemini_service.py:172-217 | a field that already meets its minimum is left exactly as it was |
| `Gemini.RepairedReplacesShortFields` | gemini_service.py:171-269 | a short or missing field is replaced by: 3 fixed modules of 5 subtopics; 5 recommendations with distinct urls; 10 answerable questions |
| `Gemini.RepairedIdempotent` | gemini_service.py:171-271 | repairing repaired content changes nothing |
| `Gemini.Content.Repair` | gemini_service.py:171-269 | the in-place repair leaves the dictionary equal to `Repaired` of its old value |
| `Gemini.GenerateLearningPathContent` | gemini_service.py:32-468 | the content returned for each kind of reply, which always has at least 2 modules, 3 recommendations and 5 questions |
| `Gemini.ParseFailurePath` | gemini_service.py:137-271 | a reply without JSON keeps the default's two modules and gets the five replacement recommendations, with distinct urls, and the ten replacement questions |
| `Gemini.OutagePathsAgree` | gemini_service.py:371-468 | the exception path returns the same content as the timeout path; the two handlers return identical literals, so this holds by construction of the one `OutageFallback` |
| `Gemini.OutageRecommendationsRepeatUrl` | gemini_service.py:291-317 | the outage fallback's recommendations do not have distinct urls |
| `Gemini.GeneratedMeetsMinimums` | gemini_service.py:131-271 | whatever the reply, the minimums hold; without a parsed reply the quiz has ten answerable questions |
| `Pipeline.OutagePlaceholdersKept` | routes.py:46-58 | after a timeout or failure, an enhancement that finds nothing leaves five placeholders that share one url |
| `Pipeline.ParsedRecommendationsKept` | routes.py:47-58 | parsed recommendations, three or more, survive repair and an enhancement that finds nothing, whatever their number and urls |

## Where the code and the documented behaviour differ

The model follows the code in each of these cases.

- **Final recommendation list.** The service documents as an invariant that the stored recommendation list has at most five entries, no two sharing a url. The enhancer only guarantees this when it replaces the list, that is when some search found a video.
  - When nothing is found, the generator's placeholders are stored as they are.
  - After a timeout or a failed model call, the placeholders are the five outage recommendations. These all point to `https://youtube.com` (`Pipeline.OutagePlaceholdersKept`).
  - After a parsed reply, the placeholders can be any number with any urls (`Pipeline.ParsedRecommendationsKept`).
- **Description length.** The documented behaviour is truncation to 200 characters with an ellipsis. The code keeps 200 characters and appends three more, so a shortened description has 203 characters.
- **Malformed items.** An item without one of the keys the client reads raises inside the client. The exception handler then returns the empty list for the whole search, including the well-formed items.

## Left out

- The HTTP request to the YouTube Data API and its parameters, the 10-second timeout, `YOUTUBE_API_KEY` and `load_dotenv`: replaced by the `ApiOutcome` input.
- The Gemini model call: the prompt, the model name, `GOOGLE_API_KEY` and the 90-second `asyncio.wait_for`. What these came to is the `ModelReply` input.
- JSON decoding and the regex extraction of a `{...}` span: their outcome is part of `ModelReply`.
  - A span that does not decode raises into the general handler, so it is `Failed`.
- Parsed content of the wrong JSON types is not modelled. This covers a non-object reply and a `modules` value that is not a list. Parsed content is a dictionary with the three keys, each possibly absent.
- Other keys of the parsed dictionary are not modelled. The repair block leaves them alone, and the request handler does not read them.
- Logging, and the `__main__` demonstration block of the search client.
- `Builtins.Lower`: models `str.lower()` on ASCII letters only. Unicode case mapping is not available in the model.
- `Builtins.LastWordAfterSpace`: on a string with no words, Python's `split()[-1]` raises, whereas the model gives the empty string. The enhancer only applies it to queries that end in a fixed word, so that case cannot arise.
- `Schemas.LearningPath`: the class holds the four keys the request handler builds (routes.py:50-55). The enhancer reads `modules` and may replace `youtube_recommendations`. Its unused read of the existing recommendations (youtube_service.py:90) is left out, and its return of the same dictionary is modelled as the in-place update.
- Storage, HTTP routing, metrics and the demonstration script are outside the modelled logic. `supabase_service.py`, `routes.py` beyond the two calls it chains, `metrics_service.py`, `main.py` and `demonstrate_youtube_recommendations.py` are not part of this model.
