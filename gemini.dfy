/**
 * Learning path content generation: what the generator makes of the model's
 * reply. A parsed reply is repaired field by field against minimum sizes;
 * a reply without a JSON object becomes a small default that is then
 * repaired; a timeout or any other failure gives a fixed outage fallback.
 * The model call and JSON decoding are not modelled: what they came to is
 * the input `ModelReply`.
 */
module Gemini {
  import opened Schemas
  import opened Builtins

  /** Minimum sizes below which a field of the generated content is replaced. */
  const MinModules: nat := 2
  const MinRecommendations: nat := 3
  const MinQuizQuestions: nat := 5

  /** The url every outage fallback recommendation points to. */
  const YouTubeHome := "https://youtube.com"

  /** The content dictionary; a key may be absent. */
  datatype ContentDict = ContentDict(
    modules: Option<seq<Module>>,
    youtubeRecommendations: Option<seq<YouTubeRecommendation>>,
    quizQuestions: Option<seq<QuizQuestion>>)

  /** `key not in content or len(content[key]) < minimum` */
  predicate Missing<T>(field: Option<seq<T>>, minimum: nat) {
    field.None? || |field.value| < minimum
  }

  /** The key is present with at least `minimum` entries. */
  predicate HasAtLeast<T>(field: Option<seq<T>>, minimum: nat) {
    field.Some? && |field.value| >= minimum
  }

  /** Every module has exactly five subtopics. */
  predicate FiveSubtopicsEach(ms: seq<Module>) {
    forall i :: 0 <= i < |ms| ==> |ms[i].subtopics| == 5
  }

  /** Every question has four options, among them its correct answer. */
  predicate AllAnswerable(qs: seq<QuizQuestion>) {
    forall i :: 0 <= i < |qs| ==> Answerable(qs[i])
  }

  // ---------------------------------------------------------------------
  // Fixed modules

  function IntroductionModule(topic: string): Module {
    Module("Introduction to " + topic,
      ["Basics of " + topic, "Fundamentals of " + topic, "Getting Started with " + topic,
       "Core Concepts of " + topic, "Overview of " + topic])
  }

  /** The second module of the parse-failure default and of the outage fallback. */
  function IntermediateModule(topic: string): Module {
    Module("Intermediate " + topic,
      ["Advanced " + topic + " Concepts", topic + " Best Practices", "Real-world " + topic + " Applications",
       topic + " Tools and Techniques", "Problem Solving with " + topic])
  }

  function AdvancedModule(topic: string): Module {
    Module("Advanced " + topic,
      ["Expert Techniques", "Optimization Strategies", "Industry Applications",
       "Cutting-edge Developments", "Future Trends"])
  }

  /** The three modules that replace a missing or too short module list. */
  function RepairModules(topic: string): (ms: seq<Module>)
    ensures |ms| == 3 && FiveSubtopicsEach(ms)
    ensures ms[0].title == "Foundations of " + topic
    ensures ms[1].title == "Intermediate " + topic
    ensures ms[2] == AdvancedModule(topic)
  {
    [Module("Foundations of " + topic,
       ["Introduction to " + topic, "Basic Principles", "Core Components", "Essential Tools", "Getting Started"]),
     Module("Intermediate " + topic,
       ["Advanced Concepts", "Practical Applications", "Problem Solving", "Best Practices", "Real-world Examples"]),
     AdvancedModule(topic)]
  }

  // ---------------------------------------------------------------------
  // Fixed recommendations

  /** A title made of a fixed text before the topic and one after it. */
  function AroundTopic(parts: (string, string), topic: string): string {
    parts.0 + topic + parts.1
  }

  const RepairTitles: seq<(string, string)> := [
    ("Complete ", " Course for Beginners"), ("Advanced ", " Tutorial"), ("", " Projects and Examples"),
    ("", " Tips and Tricks"), ("Mastering ", "")]
  const RepairUrlPrefix := "https://youtube.com/watch?v="
  const RepairVideoIds: seq<string> := ["beginner", "advanced", "projects", "tips", "master"]
  /** The keywords after the lower-cased topic. */
  const RepairKeywords: seq<seq<string>> := [
    ["course", "beginner"], ["tutorial", "advanced"], ["projects", "examples"], ["tips", "tricks"], ["master", "expert"]]

  /** The five recommendations that replace a missing or too short list. */
  function RepairRecommendations(topic: string): seq<YouTubeRecommendation> {
    seq(|RepairTitles|, i requires 0 <= i < |RepairTitles| =>
      YouTubeRecommendation(AroundTopic(RepairTitles[i], topic), RepairUrlPrefix + RepairVideoIds[i],
                            [Lower(topic)] + RepairKeywords[i]))
  }

  const OutageTitles: seq<(string, string)> := [
    ("Complete ", " Tutorial for Beginners"), ("Advanced ", " Techniques"), ("", " Projects and Examples"),
    ("", " Tips and Tricks"), ("Mastering ", "")]
  /** The keywords after the lower-cased topic. */
  const OutageKeywords: seq<seq<string>> := [
    ["tutorial", "beginner"], ["advanced", "techniques"], ["projects", "examples"], ["tips", "tricks"], ["master", "expert"]]

  /** The five recommendations of the outage fallback, all pointing to the YouTube home page. */
  function OutageRecommendations(topic: string): seq<YouTubeRecommendation> {
    seq(|OutageTitles|, i requires 0 <= i < |OutageTitles| =>
      YouTubeRecommendation(AroundTopic(OutageTitles[i], topic), YouTubeHome, [Lower(topic)] + OutageKeywords[i]))
  }

  // ---------------------------------------------------------------------
  // Fixed quiz questions

  /** The first question of the repaired quiz and of the outage quiz, which differ only in wording. */
  function PurposeQuestion(question: string, topic: string): QuizQuestion {
    var answer := "To solve " + topic + "-related problems";
    QuizQuestion(question, [answer, "To create art", "To play games", "To browse the internet"], answer)
  }

  /** The nine questions both fixed quizzes share after their first: the topic and "?" follow each stem. */
  const SharedStems: seq<string> := [
    "Which of these is a fundamental concept in ",
    "What is an important skill in ",
    "What tool is commonly used in ",
    "What is a benefit of learning ",
    "What is a common challenge in ",
    "What is an advanced technique in ",
    "What is a best practice in ",
    "What is a real-world application of ",
    "What is the future of "]

  const SharedOptions: seq<seq<string>> := [
    ["Core principle 1", "Random concept", "Irrelevant topic", "Unrelated field"],
    ["Key skill", "Unrelated ability", "Irrelevant knowledge", "Random talent"],
    ["Essential tool", "Unrelated software", "Irrelevant application", "Random program"],
    ["Key benefit", "Unrelated advantage", "Irrelevant gain", "Random improvement"],
    ["Typical difficulty", "Unrelated obstacle", "Irrelevant problem", "Random issue"],
    ["Expert method", "Basic approach", "Simple technique", "Elementary strategy"],
    ["Recommended approach", "Outdated method", "Inefficient technique", "Poor strategy"],
    ["Practical use case", "Theoretical concept", "Academic exercise", "Hypothetical scenario"],
    ["Emerging trend", "Declining field", "Stagnant area", "Obsolete technology"]]

  const SharedAnswers: seq<string> := [
    "Core principle 1", "Key skill", "Essential tool", "Key benefit", "Typical difficulty",
    "Expert method", "Recommended approach", "Practical use case", "Emerging trend"]

  function SharedQuestions(topic: string): seq<QuizQuestion> {
    seq(|SharedStems|, i requires 0 <= i < |SharedStems| =>
      QuizQuestion(SharedStems[i] + topic + "?", SharedOptions[i], SharedAnswers[i]))
  }

  /** The ten questions that replace a missing or too short quiz. */
  function RepairQuiz(topic: string): seq<QuizQuestion> {
    [PurposeQuestion("What is the primary purpose of " + topic + "?", topic)] + SharedQuestions(topic)
  }

  /** The ten questions of the outage fallback. */
  function OutageQuiz(topic: string): seq<QuizQuestion> {
    [PurposeQuestion("What is " + topic + " primarily used for?", topic)] + SharedQuestions(topic)
  }

  lemma SharedQuestionsAnswerable(topic: string)
    ensures |SharedQuestions(topic)| == 9 && AllAnswerable(SharedQuestions(topic))
  {
    var qs := SharedQuestions(topic);
    forall i | 0 <= i < |qs| ensures Answerable(qs[i]) {
      assert SharedAnswers[i] == SharedOptions[i][0];
    }
  }

  /** Ten questions, each with four options one of which is its answer. */
  lemma {:induction false} FixedQuizzesAnswerable(topic: string, question: string)
    ensures var qs := [PurposeQuestion(question, topic)] + SharedQuestions(topic);
      |qs| == 10 && AllAnswerable(qs)
  {
    var first := PurposeQuestion(question, topic);
    assert Answerable(first) by {
      assert first.correctAnswer == first.options[0];
    }
    SharedQuestionsAnswerable(topic);
    var qs := [first] + SharedQuestions(topic);
    forall i | 0 <= i < |qs| ensures Answerable(qs[i]) {
      if i > 0 {
        assert qs[i] == SharedQuestions(topic)[i - 1];
      }
    }
  }

  // ---------------------------------------------------------------------
  // The three fallback contents

  /**
   * The content used when no JSON object could be found in the reply: two
   * modules, one placeholder recommendation and one placeholder question.
   */
  function ParseFailureDefault(topic: string): (c: ContentDict)
    ensures c.modules == Some([IntroductionModule(topic), IntermediateModule(topic)])
    ensures c.youtubeRecommendations.Some? && |c.youtubeRecommendations.value| == 1
    ensures c.quizQuestions.Some? && |c.quizQuestions.value| == 1 && AllAnswerable(c.quizQuestions.value)
  {
    ContentDict(
      Some([IntroductionModule(topic), IntermediateModule(topic)]),
      Some([YouTubeRecommendation("Learn " + topic, YouTubeHome, [Lower(topic), "tutorial"])]),
      Some([QuizQuestion("What is " + topic + "?", ["A", "B", "C", "D"], "A")]))
  }

  /**
   * The content returned when the model call timed out or raised: three
   * modules of five subtopics, five recommendations and ten answerable
   * questions.
   */
  function OutageFallback(topic: string): (c: ContentDict)
    ensures c.modules.Some? && |c.modules.value| == 3 && FiveSubtopicsEach(c.modules.value)
    ensures c.youtubeRecommendations.Some? && |c.youtubeRecommendations.value| == 5
    ensures forall i :: 0 <= i < |c.youtubeRecommendations.value| ==> c.youtubeRecommendations.value[i].url == YouTubeHome
    ensures c.quizQuestions.Some? && |c.quizQuestions.value| == 10 && AllAnswerable(c.quizQuestions.value)
  {
    FixedQuizzesAnswerable(topic, "What is " + topic + " primarily used for?");
    ContentDict(
      Some([IntroductionModule(topic), IntermediateModule(topic), AdvancedModule(topic)]),
      Some(OutageRecommendations(topic)),
      Some(OutageQuiz(topic)))
  }

  // ---------------------------------------------------------------------
  // Repair

  /** The content after the repair block: each short or missing field replaced, the others kept. */
  function Repaired(topic: string, c: ContentDict): ContentDict {
    ContentDict(
      if Missing(c.modules, MinModules) then Some(RepairModules(topic)) else c.modules,
      if Missing(c.youtubeRecommendations, MinRecommendations) then Some(RepairRecommendations(topic)) else c.youtubeRecommendations,
      if Missing(c.quizQuestions, MinQuizQuestions) then Some(RepairQuiz(topic)) else c.quizQuestions)
  }

  /** The replacement recommendations have pairwise distinct urls. */
  lemma RepairRecommendationsDistinct(topic: string)
    ensures |RepairRecommendations(topic)| == 5 && UrlsDistinct(RepairRecommendations(topic))
  {
    var rs := RepairRecommendations(topic);
    // The five video ids differ in their first letter.
    forall i, j | 0 <= i < j < 5 ensures rs[i].url != rs[j].url {
      assert rs[i].url[|RepairUrlPrefix|] == RepairVideoIds[i][0];
      assert rs[j].url[|RepairUrlPrefix|] == RepairVideoIds[j][0];
    }
  }

  /** After repair every field is present and at least as long as its minimum. */
  lemma RepairedMeetsMinimums(topic: string, c: ContentDict)
    ensures var r := Repaired(topic, c);
      && HasAtLeast(r.modules, MinModules)
      && HasAtLeast(r.youtubeRecommendations, MinRecommendations)
      && HasAtLeast(r.quizQuestions, MinQuizQuestions)
  {
    RepairRecommendationsDistinct(topic);
    FixedQuizzesAnswerable(topic, "What is the primary purpose of " + topic + "?");
  }

  /** A field that already meets its minimum is left exactly as it was. */
  lemma RepairedKeepsSufficientFields(topic: string, c: ContentDict)
    ensures HasAtLeast(c.modules, MinModules) ==> Repaired(topic, c).modules == c.modules
    ensures HasAtLeast(c.youtubeRecommendations, MinRecommendations) ==>
      Repaired(topic, c).youtubeRecommendations == c.youtubeRecommendations
    ensures HasAtLeast(c.quizQuestions, MinQuizQuestions) ==> Repaired(topic, c).quizQuestions == c.quizQuestions
  {
  }

  /**
   * A field below its minimum becomes: three modules "Foundations of T",
   * "Intermediate T", "Advanced T" of five subtopics each; five
   * recommendations with distinct urls; ten answerable questions.
   */
  lemma RepairedReplacesShortFields(topic: string, c: ContentDict)
    ensures Missing(c.modules, MinModules) ==>
      var ms := Repaired(topic, c).modules.value;
      && |ms| == 3 && FiveSubtopicsEach(ms)
      && ms[0].title == "Foundations of " + topic
      && ms[1].title == "Intermediate " + topic
      && ms[2].title == "Advanced " + topic
    ensures Missing(c.youtubeRecommendations, MinRecommendations) ==>
      var rs := Repaired(topic, c).youtubeRecommendations.value;
      |rs| == 5 && UrlsDistinct(rs)
    ensures Missing(c.quizQuestions, MinQuizQuestions) ==>
      var qs := Repaired(topic, c).quizQuestions.value;
      |qs| == 10 && AllAnswerable(qs)
  {
    RepairRecommendationsDistinct(topic);
    FixedQuizzesAnswerable(topic, "What is the primary purpose of " + topic + "?");
  }

  /** Repairing repaired content changes nothing. */
  lemma RepairedIdempotent(topic: string, c: ContentDict)
    ensures Repaired(topic, Repaired(topic, c)) == Repaired(topic, c)
  {
    RepairedMeetsMinimums(topic, c);
  }

  /**
   * The content dictionary while the repair block updates it in place.
   */
  class Content {
    var modules: Option<seq<Module>>
    var youtubeRecommendations: Option<seq<YouTubeRecommendation>>
    var quizQuestions: Option<seq<QuizQuestion>>

    constructor (c: ContentDict)
      ensures AsDict() == c
    {
      modules := c.modules;
      youtubeRecommendations := c.youtubeRecommendations;
      quizQuestions := c.quizQuestions;
    }

    function AsDict(): ContentDict
      reads this
    {
      ContentDict(modules, youtubeRecommendations, quizQuestions)
    }

    /** The repair block: each field below its minimum is overwritten in turn. */
    method Repair(topic: string)
      modifies this
      ensures AsDict() == Repaired(topic, old(AsDict()))
    {
      if Missing(modules, MinModules) {
        modules := Some(RepairModules(topic));
      }
      if Missing(youtubeRecommendations, MinRecommendations) {
        youtubeRecommendations := Some(RepairRecommendations(topic));
      }
      if Missing(quizQuestions, MinQuizQuestions) {
        quizQuestions := Some(RepairQuiz(topic));
      }
    }
  }

  // ---------------------------------------------------------------------
  // Generation

  /** What the model call and the decoding of its reply came to. */
  datatype ModelReply =
    | Parsed(content: ContentDict) // the reply, or the `{...}` span found in it, decoded to a dictionary
    | NoJsonObject                 // the reply did not decode and held no `{...}` span
    | TimedOut                     // no reply within 90 seconds
    | Failed                       // any other error: no API key, a failed call, a span that did not decode

  /** The content generate_learning_path_content returns for this reply. */
  function Generated(topic: string, reply: ModelReply): ContentDict {
    match reply
    case Parsed(c) => Repaired(topic, c)
    case NoJsonObject => Repaired(topic, ParseFailureDefault(topic))
    case TimedOut => OutageFallback(topic)
    case Failed => OutageFallback(topic)
  }

  /** generate_learning_path_content once the reply is known. */
  method GenerateLearningPathContent(topic: string, reply: ModelReply) returns (result: ContentDict)
    ensures result == Generated(topic, reply)
    ensures HasAtLeast(result.modules, MinModules)
    ensures HasAtLeast(result.youtubeRecommendations, MinRecommendations)
    ensures HasAtLeast(result.quizQuestions, MinQuizQuestions)
  {
    match reply {
      case TimedOut =>
        return OutageFallback(topic);
      case Failed =>
        return OutageFallback(topic);
      case Parsed(c) =>
        var content := new Content(c);
        content.Repair(topic);
        result := content.AsDict();
        RepairedMeetsMinimums(topic, c);
      case NoJsonObject =>
        var content := new Content(ParseFailureDefault(topic));
        content.Repair(topic);
        result := content.AsDict();
        RepairedMeetsMinimums(topic, ParseFailureDefault(topic));
    }
  }

  /**
   * A reply without a JSON object keeps the default's two modules
   * ("Introduction to T", "Intermediate T") and gets the five repair
   * recommendations and the ten repair questions.
   */
  lemma ParseFailurePath(topic: string)
    ensures var r := Generated(topic, NoJsonObject);
      && r.modules == Some([IntroductionModule(topic), IntermediateModule(topic)])
      && r.modules.value[0].title == "Introduction to " + topic
      && r.modules.value[1].title == "Intermediate " + topic
      && r.youtubeRecommendations == Some(RepairRecommendations(topic))
      && |r.youtubeRecommendations.value| == 5 && UrlsDistinct(r.youtubeRecommendations.value)
      && r.quizQuestions == Some(RepairQuiz(topic))
      && |r.quizQuestions.value| == 10 && AllAnswerable(r.quizQuestions.value)
  {
    RepairedReplacesShortFields(topic, ParseFailureDefault(topic));
  }

  /**
   * The timeout and the error paths return the same content. The two
   * handlers (gemini_service.py:272-370 and 371-468) return dictionary
   * literals that are identical line for line, so the model builds both from
   * the one `OutageFallback`; this lemma only records that `Generated` routes
   * both replies there, and holds by construction.
   */
  lemma OutagePathsAgree(topic: string)
    ensures Generated(topic, TimedOut) == Generated(topic, Failed) == OutageFallback(topic)
  {
  }

  /** The outage recommendations all share one url, so they are not url-distinct. */
  lemma OutageRecommendationsRepeatUrl(topic: string)
    ensures !UrlsDistinct(OutageFallback(topic).youtubeRecommendations.value)
  {
    var rs := OutageFallback(topic).youtubeRecommendations.value;
    assert rs[0].url == rs[1].url;
  }

  /**
   * Whatever the reply, the content has at least two modules, three
   * recommendations and five questions; only a parsed reply can bring
   * questions that are not answerable.
   */
  lemma GeneratedMeetsMinimums(topic: string, reply: ModelReply)
    ensures var r := Generated(topic, reply);
      && HasAtLeast(r.modules, MinModules)
      && HasAtLeast(r.youtubeRecommendations, MinRecommendations)
      && HasAtLeast(r.quizQuestions, MinQuizQuestions)
    ensures !reply.Parsed? ==> AllAnswerable(Generated(topic, reply).quizQuestions.value)
    ensures !reply.Parsed? ==> |Generated(topic, reply).quizQuestions.value| == 10
  {
    match reply
    case Parsed(c) => RepairedMeetsMinimums(topic, c);
    case NoJsonObject => ParseFailurePath(topic);
    case TimedOut =>
    case Failed =>
  }
}
