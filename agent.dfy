/**
 * The digest pipeline of src/lib/digest-agent.js. The HackerNews API, the
 * language model and the clock are inputs (`Services` and `now`); the
 * in-memory cache and the AI client are the two pieces of state it touches.
 */
module Agent {
  import opened Wrappers
  import opened Text
  import opened Seqs
  import opened HackerNews
  import opened TechFilter
  import opened Ai
  import opened Digests
  import opened MemoryCache

  /** The error thrown when no API key is configured. */
  const KeyMissing := ApiKeyPhrase + " is required. Set OPENAI_API_KEY environment variable."
  const ApiKeyPhrase := "OpenAI API key"

  /** `getTrendingStories(50, …)`: how many trending stories the pipeline asks for. */
  const TrendingLimit := 50

  /** `DEFAULT_CONFIG`; `envKey` is `process.env.OPENAI_API_KEY`. */
  function DefaultConfig(envKey: Option<string>): Config {
    Config(Some(15), Some(24), envKey)
  }

  /** `{ ...defaults, ...config }`: every key the caller's object has overrides the default. */
  function Merge(defaults: Config, config: Config): (r: Config)
    ensures r.storyLimit == if config.storyLimit.Some? then config.storyLimit else defaults.storyLimit
    ensures r.hoursBack == if config.hoursBack.Some? then config.hoursBack else defaults.hoursBack
    ensures r.openaiApiKey == if config.openaiApiKey.Some? then config.openaiApiKey else defaults.openaiApiKey
  {
    Config(
      if config.storyLimit.Some? then config.storyLimit else defaults.storyLimit,
      if config.hoursBack.Some? then config.hoursBack else defaults.hoursBack,
      if config.openaiApiKey.Some? then config.openaiApiKey else defaults.openaiApiKey)
  }

  /** The merged configuration always has a story limit and an hours-back value. */
  lemma MergedHasNumbers(envKey: Option<string>, config: Config)
    ensures Merge(DefaultConfig(envKey), config).storyLimit.Some?
    ensures Merge(DefaultConfig(envKey), config).hoursBack.Some?
    ensures config.storyLimit.None? ==> Merge(DefaultConfig(envKey), config).storyLimit == Some(15)
  {
  }

  /** What the pipeline gets from the outside world. */
  datatype Services = Services(
    topIds: Result<seq<int>>,
    fetch: int -> ItemResponse,
    backend: Story -> SummaryReply,
    overview: OverviewReply,
    date: string)

  /** Every selected story is a tech story of the trending list. */
  lemma SelectedAreTech(trending: seq<Story>, storyLimit: int)
    ensures forall x :: x in TopByScore(FilterTechStories(trending), storyLimit) ==> IsTechStory(x) && x in trending
  {
    var tech := FilterTechStories(trending);
    var sel := TopByScore(tech, storyLimit);
    TopByScoreShape(tech, storyLimit);
    forall x | x in sel ensures IsTechStory(x) && x in trending {
      assert x in multiset(sel);
    }
  }

  /**
   * The trending stories arrive sorted by score and filtering keeps their
   * order, so the pipeline's own sort changes nothing.
   */
  lemma SecondSortIsIdentity(trending: seq<Story>)
    requires SortedByScore(trending)
    ensures SortByScore(FilterTechStories(trending)) == FilterTechStories(trending)
  {
    FilterSorted(trending, IsTechStory);
    SortSortedIsIdentity(FilterTechStories(trending));
  }

  /** The `categorizeTechStories` result: the non-empty buckets. */
  function Categorized(stories: seq<Story>): map<Category, seq<Story>> {
    map c | c in AllCategories && Bucket(stories, c) != [] :: Bucket(stories, c)
  }

  /** The selected stories are spread over the buckets of their categories, each exactly once. */
  lemma CategorizedPartition(stories: seq<Story>)
    ensures forall c :: c in Categorized(stories) <==> Bucket(stories, c) != []
    ensures forall c :: c in Categorized(stories) ==> Categorized(stories)[c] == Bucket(stories, c)
    ensures SumSizes(stories, AllCategories) == |stories|
  {
    EveryCategoryListed();
    BucketsPartition(stories);
  }

  /**
   * Steps 1 to 7 once the cache has missed: the key check, the fetch, the
   * filter, the ranking, the summaries, the categories, the overview and
   * the digest object.
   */
  function Pipeline(finalConfig: Config, now: int, svc: Services): Result<Digest>
    requires finalConfig.storyLimit.Some? && finalConfig.hoursBack.Some?
  {
    if !Truthy(finalConfig.openaiApiKey) then Failure(KeyMissing)
    else match GetTrendingStories(TrendingLimit, finalConfig.hoursBack.value, now, svc.topIds, svc.fetch)
      case Failure(e) => Failure(e)
      case Success(trending) =>
        var tech := FilterTechStories(trending);
        var top := TopByScore(tech, finalConfig.storyLimit.value);
        var summaries := ShapeStories(top, svc.backend, now);
        var categories := Categorized(top);
        var overview := ShapeOverview(|summaries|, svc.date, svc.overview, now);
        Success(Digest("digest-" + IntToString(now), now, svc.date, overview, summaries, categories,
                       Stats(|trending|, |tech|, |summaries|, |categories|), finalConfig, None, None))
  }

  /** A missing or empty API key fails before anything is fetched. */
  lemma PipelineNeedsKey(finalConfig: Config, now: int, svc: Services)
    requires finalConfig.storyLimit.Some? && finalConfig.hoursBack.Some?
    ensures !Truthy(finalConfig.openaiApiKey) ==> Pipeline(finalConfig, now, svc) == Failure(KeyMissing)
    ensures Truthy(finalConfig.openaiApiKey) ==>
      (Pipeline(finalConfig, now, svc).Success? <==> svc.topIds.Success?)
  {
  }

  /**
   * The digest's counts describe its own lists: the trending and tech
   * stories counted, one summary per selected story, and that number bounded
   * by the story limit and by the tech stories found, which the trending
   * stories bound in turn.
   */
  lemma PipelineStats(finalConfig: Config, now: int, svc: Services)
    requires finalConfig.storyLimit.Some? && finalConfig.hoursBack.Some?
    requires Pipeline(finalConfig, now, svc).Success?
    ensures var d := Pipeline(finalConfig, now, svc).value;
      var trending := GetTrendingStories(TrendingLimit, finalConfig.hoursBack.value, now, svc.topIds, svc.fetch).value;
      && d.stats.totalStoriesFetched == |trending|
      && d.stats.techStoriesFound == |FilterTechStories(trending)|
      && d.stats.storiesSummarized == |d.summaries|
      && d.stats.techStoriesFound <= d.stats.totalStoriesFetched <= TrendingLimit
      && |d.summaries| <= d.stats.techStoriesFound
      && (finalConfig.storyLimit.value >= 0 ==> |d.summaries| <= finalConfig.storyLimit.value)
      && d.stats.categoriesFound == |d.categories|
      && d.overview.storyCount == |d.summaries|
      && d.config == finalConfig
      && d.cacheInfo.None?
  {
    var trending := GetTrendingStories(TrendingLimit, finalConfig.hoursBack.value, now, svc.topIds, svc.fetch).value;
    TopByScoreShape(FilterTechStories(trending), finalConfig.storyLimit.value);
  }

  /**
   * The summaries and the categories come from the same selected list:
   * summary i is about selected story i, and every selected story sits in
   * the one bucket of its category.
   */
  lemma PipelineSummariesMatchCategories(finalConfig: Config, now: int, svc: Services)
    requires finalConfig.storyLimit.Some? && finalConfig.hoursBack.Some?
    requires Pipeline(finalConfig, now, svc).Success?
    ensures var d := Pipeline(finalConfig, now, svc).value;
      var trending := GetTrendingStories(TrendingLimit, finalConfig.hoursBack.value, now, svc.topIds, svc.fetch).value;
      var top := TopByScore(FilterTechStories(trending), finalConfig.storyLimit.value);
      && |d.summaries| == |top|
      && (forall i :: 0 <= i < |top| ==> d.summaries[i].originalStory == top[i])
      && (forall c :: c in d.categories <==> Bucket(top, c) != [])
      && (forall c :: c in d.categories ==> d.categories[c] == Bucket(top, c))
      && SumSizes(top, AllCategories) == |top|
  {
    var trending := GetTrendingStories(TrendingLimit, finalConfig.hoursBack.value, now, svc.topIds, svc.fetch).value;
    CategorizedPartition(TopByScore(FilterTechStories(trending), finalConfig.storyLimit.value));
  }

  /** The result of `generateDigest` on the cache's map `m`: the cached digest on a hit, else the pipeline's. */
  function Generated(m: map<string, Entry>, finalConfig: Config, now: int, svc: Services): Result<Digest>
    requires finalConfig.storyLimit.Some? && finalConfig.hoursBack.Some?
  {
    var hit := Lookup(m, finalConfig, now);
    if hit.Some? then Success(hit.value) else Pipeline(finalConfig, now, svc)
  }

  /**
   * `generateDigest(config)`: a cache hit is returned as it stands; a miss
   * runs the pipeline, and only a digest that was generated in full is
   * stored, under the merged configuration, API key included. The clock
   * is read twice: `now` for the lookup and the pipeline, and `storedAt`
   * for the `set`, which follows the network calls and may fall in a later
   * 30-minute bucket than the lookup's key.
   */
  method GenerateDigest(config: Config, envKey: Option<string>, now: int, storedAt: int, svc: Services,
                        cache: DigestCache, ai: AiClient) returns (r: Result<Digest>)
    modifies cache, ai
    ensures var finalConfig := Merge(DefaultConfig(envKey), config);
      var hit := Lookup(old(cache.cache), finalConfig, now);
      && (hit.Some? ==> r == Success(hit.value) && cache.cache == old(cache.cache) && ai.openai == old(ai.openai))
      && r == Generated(old(cache.cache), finalConfig, now, svc)
      && (hit.None? && r.Success? ==>
            cache.cache == Store(AfterLookup(old(cache.cache), finalConfig, now), finalConfig, r.value, None, storedAt))
      && (hit.None? && r.Failure? ==> cache.cache == AfterLookup(old(cache.cache), finalConfig, now))
      && (hit.None? && !Truthy(finalConfig.openaiApiKey) ==> ai.openai == old(ai.openai))
      && (hit.None? && Truthy(finalConfig.openaiApiKey) ==> ai.openai == finalConfig.openaiApiKey)
  {
    var finalConfig := Merge(DefaultConfig(envKey), config);
    var cachedDigest := cache.Get(finalConfig, now);
    if cachedDigest.Some? {
      return Success(cachedDigest.value);
    }
    if !Truthy(finalConfig.openaiApiKey) {
      return Failure(KeyMissing);
    }
    var init := ai.InitializeOpenAI(finalConfig.openaiApiKey);
    var fetched := GetTrendingStories(TrendingLimit, finalConfig.hoursBack.value, now, svc.topIds, svc.fetch);
    if fetched.Failure? {
      return Failure(fetched.error);
    }
    var trendingStories := fetched.value;
    var techStories := FilterTechStories(trendingStories);
    var topTechStories := SliceTo(SortByScore(techStories), finalConfig.storyLimit.value);
    var summarized := ai.SummarizeStories(topTechStories, svc.backend, now);
    var summaries := summarized.value;
    var categorizedStories := CategorizeTechStories(topTechStories);
    assert categorizedStories == Categorized(topTechStories) by {
      EveryCategoryListed();
    }
    var overview := ai.GenerateDigestOverview(summaries, svc.date, svc.overview, now);
    var digest := Digest("digest-" + IntToString(now), now, svc.date, overview.value, summaries, categorizedStories,
                         Stats(|trendingStories|, |techStories|, |summaries|, |categorizedStories|), finalConfig, None, None);
    cache.Set(finalConfig, digest, None, storedAt);
    return Success(digest);
  }
}
