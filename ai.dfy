/**
 * Summarisation result shaping (src/lib/services/ai.js). The language-model
 * backend is an input: for each story it either returns text that parses as
 * JSON, returns text that does not, or throws. The module-level client
 * variable is the one piece of state, held by `AiClient`.
 */
module Ai {
  import opened Wrappers
  import opened Text
  import opened HackerNews

  const KeyRequired := "OpenAI API key is required"
  const NotInitialized := "OpenAI client not initialized. Call initializeOpenAI() first."
  const FallbackWhy := "This story is gaining attention in the tech community."
  const FallbackCategory := "General Tech"

  /** The keys of a parsed JSON reply that the pipeline reads; a missing key is `None`. */
  datatype ParsedReply = ParsedReply(
    summary: Option<string>,
    whyItMatters: Option<string>,
    category: Option<string>,
    error: Option<string>)

  /** What the backend made of one summary request. */
  datatype SummaryReply =
    | Parsed(fields: ParsedReply)
    | Unparseable
    | CallFailed(message: string)

  /** What the backend made of the overview request: its text, or a thrown error. */
  datatype OverviewReply =
    | OverviewText(text: string)
    | OverviewFailed(message: string)

  /** A summary object; `generatedAt` stands for the ISO timestamp, in milliseconds. */
  datatype Summary = Summary(
    summary: Option<string>,
    whyItMatters: Option<string>,
    category: Option<string>,
    originalStory: Story,
    generatedAt: int,
    error: Option<string>)

  datatype Overview = Overview(
    overview: string,
    storyCount: nat,
    date: string,
    generatedAt: int,
    error: Option<string>)

  const TrendingWith := " - A trending story on HackerNews with "
  const PointsAnd := " points and "
  const Comments := " comments."

  /** The summary text used whenever the backend gives nothing usable. */
  function FallbackText(story: Story): string {
    story.title + TrendingWith + IntToString(story.score) + PointsAnd + IntToString(story.descendants) + Comments
  }

  /** The templated summary, carrying `error` only when the backend call threw. */
  function Fallback(story: Story, now: int, error: Option<string>): Summary {
    Summary(Some(FallbackText(story)), Some(FallbackWhy), Some(FallbackCategory), story, now, error)
  }

  /**
   * The `try`/`catch` of `summarizeStory` after the initialisation check:
   * the parsed fields spread into the result, the fallback when the text is
   * not JSON, and the fallback with the error message when the call threw.
   */
  function ShapeSummary(story: Story, reply: SummaryReply, now: int): (r: Summary)
    ensures r.originalStory == story && r.generatedAt == now
    ensures r.error.Some? <==> reply.CallFailed? || (reply.Parsed? && reply.fields.error.Some?)
    ensures reply.CallFailed? ==> r.error == Some(reply.message)
    ensures !reply.Parsed? ==>
      r.summary == Some(FallbackText(story)) && r.whyItMatters == Some(FallbackWhy)
      && r.category == Some(FallbackCategory)
    ensures reply.Parsed? ==>
      r.summary == reply.fields.summary && r.whyItMatters == reply.fields.whyItMatters
      && r.category == reply.fields.category && r.error == reply.fields.error
  {
    match reply
    case Parsed(f) => Summary(f.summary, f.whyItMatters, f.category, story, now, f.error)
    case Unparseable => Fallback(story, now, None)
    case CallFailed(message) => Fallback(story, now, Some(message))
  }

  /**
   * The fallback is built from the title, score and comment count alone:
   * two stories that agree on those get the same summary apart from the
   * story they carry.
   */
  lemma FallbackUsesTitleScoreComments(a: Story, b: Story, reply: SummaryReply, now: int)
    requires !reply.Parsed?
    requires a.title == b.title && a.score == b.score && a.descendants == b.descendants
    ensures ShapeSummary(a, reply, now).(originalStory := b) == ShapeSummary(b, reply, now)
  {
  }

  /** The fallback text gives the score and the comment count back: different counts read differently. */
  lemma FallbackTextParts(story: Story)
    ensures FallbackText(story) == (story.title + TrendingWith)
      + (IntToString(story.score) + (PointsAnd + (IntToString(story.descendants) + Comments)))
  {
  }

  lemma FallbackTextDistinguishesCounts(a: Story, b: Story)
    requires a.title == b.title
    requires FallbackText(a) == FallbackText(b)
    ensures a.score == b.score && a.descendants == b.descendants
  {
    var pre := a.title + TrendingWith;
    var ca, cb := IntToString(a.descendants) + Comments, IntToString(b.descendants) + Comments;
    assert IntToString(a.score) + (PointsAnd + ca) == IntToString(b.score) + (PointsAnd + cb) by {
      FallbackTextParts(a);
      FallbackTextParts(b);
      CancelPrefix(pre, IntToString(a.score) + (PointsAnd + ca), IntToString(b.score) + (PointsAnd + cb));
    }
    assert a.score == b.score && ca == cb by {
      assert PointsAnd[0] == ' ';
      NumberBeforeSeparator(a.score, b.score, PointsAnd + ca, PointsAnd + cb);
      CancelPrefix(PointsAnd, ca, cb);
    }
    assert Comments[0] == ' ';
    NumberBeforeSeparator(a.descendants, b.descendants, Comments, Comments);
  }

  /** The summaries of `Promise.all(stories.map(summarizeStory))` once a client exists. */
  function ShapeStories(stories: seq<Story>, backend: Story -> SummaryReply, now: int): (r: seq<Summary>)
    ensures |r| == |stories|
    ensures forall i :: 0 <= i < |stories| ==> r[i] == ShapeSummary(stories[i], backend(stories[i]), now)
  {
    seq(|stories|, i requires 0 <= i < |stories| => ShapeSummary(stories[i], backend(stories[i]), now))
  }

  /** Summary i carries story i: the summaries list the stories in their order. */
  lemma ShapeStoriesCarriesStories(stories: seq<Story>, backend: Story -> SummaryReply, now: int)
    ensures forall i :: 0 <= i < |stories| ==> ShapeStories(stories, backend, now)[i].originalStory == stories[i]
  {
  }

  /**
   * The fallback overview text. The space after the count is written as a
   * literal of its own so that the verifier sees the text's first character.
   */
  const DigestIncludes := "Today's digest includes "
  const TrendingStories := " " + "trending tech stories covering various aspects of the technology industry."

  function FallbackOverviewText(count: nat): string {
    DigestIncludes + IntToString(count) + TrendingStories
  }

  lemma FallbackOverviewParts(count: nat)
    ensures FallbackOverviewText(count) == DigestIncludes + (IntToString(count) + TrendingStories)
  {
  }

  /** The fallback overview states the number of stories: different counts give different texts. */
  lemma FallbackOverviewDistinguishesCounts(m: nat, n: nat)
    requires FallbackOverviewText(m) == FallbackOverviewText(n)
    ensures m == n
  {
    var x, y := IntToString(m) + TrendingStories, IntToString(n) + TrendingStories;
    assert x == y by {
      FallbackOverviewParts(m);
      FallbackOverviewParts(n);
      CancelPrefix(DigestIncludes, x, y);
    }
    assert TrendingStories[0] == ' ';
    NumberBeforeSeparator(m, n, TrendingStories, TrendingStories);
  }

  /**
   * The `try`/`catch` of `generateDigestOverview` after the initialisation
   * check: the backend's text, or the count-only fallback with the error.
   */
  function ShapeOverview(count: nat, date: string, reply: OverviewReply, now: int): (r: Overview)
    ensures r.storyCount == count && r.date == date && r.generatedAt == now
    ensures r.error.Some? <==> reply.OverviewFailed?
    ensures reply.OverviewText? ==> r.overview == reply.text
    ensures reply.OverviewFailed? ==> r.overview == FallbackOverviewText(count) && r.error == Some(reply.message)
  {
    match reply
    case OverviewText(text) => Overview(text, count, date, now, None)
    case OverviewFailed(message) => Overview(FallbackOverviewText(count), count, date, now, Some(message))
  }

  /** The module-level `openai` client: `None` until a key has been accepted. */
  class AiClient {
    var openai: Option<string>

    constructor ()
      ensures openai == None
    {
      openai := None;
    }

    predicate Initialized()
      reads this
    {
      openai.Some?
    }

    /** `initializeOpenAI(apiKey)`: a missing or empty key throws and leaves the client as it was. */
    method InitializeOpenAI(apiKey: Option<string>) returns (r: Outcome)
      modifies this
      ensures Truthy(apiKey) ==> r == Pass && openai == Some(apiKey.value)
      ensures !Truthy(apiKey) ==> r == Fail(KeyRequired) && openai == old(openai)
    {
      if !Truthy(apiKey) {
        return Fail(KeyRequired);
      }
      openai := Some(apiKey.value);
      return Pass;
    }

    /** `summarizeStory(story)`: throws only when no client exists; otherwise shapes the backend's reply. */
    function SummarizeStory(story: Story, reply: SummaryReply, now: int): (r: Result<Summary>)
      reads this
      ensures r.Success? <==> Initialized()
      ensures !Initialized() ==> r == Failure(NotInitialized)
      ensures r.Success? ==> r.value.originalStory == story && r.value.generatedAt == now
      ensures r.Success? ==> r.value == ShapeSummary(story, reply, now)
    {
      if openai.None? then Failure(NotInitialized) else Success(ShapeSummary(story, reply, now))
    }

    /**
     * `summarizeStories(stories)`: one summary per story, position by
     * position. An empty list calls `summarizeStory` on nothing, so it
     * yields the empty list even without a client.
     */
    function SummarizeStories(stories: seq<Story>, backend: Story -> SummaryReply, now: int): (r: Result<seq<Summary>>)
      reads this
      ensures r.Failure? <==> !Initialized() && stories != []
      ensures r.Failure? ==> r == Failure(NotInitialized)
      ensures r.Success? ==> r.value == ShapeStories(stories, backend, now)
      ensures r.Success? ==> forall i :: 0 <= i < |stories| ==>
        SummarizeStory(stories[i], backend(stories[i]), now) == Success(r.value[i])
    {
      if stories == [] then Success([])
      else if openai.None? then Failure(NotInitialized)
      else Success(ShapeStories(stories, backend, now))
    }

    /** `generateDigestOverview(summaries, date)`: throws only when no client exists. */
    function GenerateDigestOverview(summaries: seq<Summary>, date: string, reply: OverviewReply, now: int): (r: Result<Overview>)
      reads this
      ensures r.Success? <==> Initialized()
      ensures !Initialized() ==> r == Failure(NotInitialized)
      ensures r.Success? ==> r.value == ShapeOverview(|summaries|, date, reply, now)
      ensures r.Success? ==> r.value.storyCount == |summaries| && r.value.date == date
      ensures r.Success? && reply.OverviewFailed? ==>
        r.value.overview == FallbackOverviewText(|summaries|) && r.value.error == Some(reply.message)
    {
      if openai.None? then Failure(NotInitialized) else Success(ShapeOverview(|summaries|, date, reply, now))
    }
  }
}
