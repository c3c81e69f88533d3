/**
 * The shapes of a learning path: the records a generated path is made of
 * (learning_path.py) and the path dictionary that the recommendation enhancer
 * updates in place before the path is stored.
 */
module Schemas {

  /** A dictionary key that may be absent. */
  datatype Option<+T> = None | Some(value: T)

  /** A titled group of subtopics. A module whose "title" key is missing reads as the empty title. */
  datatype Module = Module(title: string, subtopics: seq<string>)

  /** A video recommendation; two recommendations with the same url are the same video. */
  datatype YouTubeRecommendation = YouTubeRecommendation(title: string, url: string, keywords: seq<string>)

  /** A multiple-choice question. */
  datatype QuizQuestion = QuizQuestion(question: string, options: seq<string>, correctAnswer: string)

  /** Four options, one of which is the correct answer. */
  predicate Answerable(q: QuizQuestion) {
    |q.options| == 4 && q.correctAnswer in q.options
  }

  /** No two recommendations share a url. */
  predicate UrlsDistinct(recs: seq<YouTubeRecommendation>) {
    forall i, j :: 0 <= i < j < |recs| ==> recs[i].url != recs[j].url
  }

  /**
   * The learning path dictionary built per request: the enhancer replaces
   * its recommendations in place and reads its modules.
   */
  class LearningPath {
    var topic: string
    var modules: seq<Module>
    var youtubeRecommendations: seq<YouTubeRecommendation>
    var quizQuestions: seq<QuizQuestion>

    constructor (topic: string, modules: seq<Module>, recs: seq<YouTubeRecommendation>, quiz: seq<QuizQuestion>)
      ensures this.topic == topic && this.modules == modules
      ensures youtubeRecommendations == recs && quizQuestions == quiz
    {
      this.topic := topic;
      this.modules := modules;
      youtubeRecommendations := recs;
      quizQuestions := quiz;
    }
  }
}
