/**
 * The digest object that src/lib/digest-agent.js builds and both caches
 * store. ISO timestamps are represented by their value in milliseconds;
 * the `toDateString()` text is an opaque string.
 */
module Digests {
  import opened Wrappers
  import opened Text
  import opened HackerNews
  import opened TechFilter
  import opened Ai

  /**
   * The generation parameters. `None` is a key the object does not have;
   * every present number is an integer.
   */
  datatype Config = Config(storyLimit: Option<int>, hoursBack: Option<int>, openaiApiKey: Option<string>)

  datatype Stats = Stats(
    totalStoriesFetched: nat,
    techStoriesFound: nat,
    storiesSummarized: nat,
    categoriesFound: nat)

  /** The `cache_info` object; the last two keys exist only on a digest served from a cache. */
  datatype CacheInfo = CacheInfo(
    cached: bool,
    generatedAt: int,
    servedFromCacheAt: Option<int>,
    cacheAgeMinutes: Option<int>)

  datatype Digest = Digest(
    id: string,
    generatedAt: int,
    date: string,
    overview: Overview,
    summaries: seq<Summary>,
    categories: map<Category, seq<Story>>,
    stats: Stats,
    config: Config,
    servedAt: Option<int>,
    cacheInfo: Option<CacheInfo>)

  /** The configuration with `openaiApiKey` deleted. */
  function WithoutKey(c: Config): (r: Config)
    ensures r.openaiApiKey.None?
    ensures r.storyLimit == c.storyLimit && r.hoursBack == c.hoursBack
  {
    c.(openaiApiKey := None)
  }

  /** `Math.round(ms / 60000)`: JavaScript rounds halves upwards, and `/` here is floor division. */
  function RoundMinutes(ms: int): int {
    (ms + 30000) / 60000
  }

  /** `Math.round` lands within half a minute of the exact age. */
  lemma RoundMinutesNearest(ms: int)
    ensures 60000 * RoundMinutes(ms) - 30000 <= ms < 60000 * RoundMinutes(ms) + 30000
  {
  }

  /** The cache key both caches build: `digest_${storyLimit}_${hoursBack}_${timeWindow}`. */
  function CacheKey(storyLimit: int, hoursBack: int, window: int): string {
    "digest_" + IntToString(storyLimit) + "_" + IntToString(hoursBack) + "_" + IntToString(window)
  }

  lemma CacheKeyParts(storyLimit: int, hoursBack: int, window: int)
    ensures CacheKey(storyLimit, hoursBack, window)
         == "digest_" + (IntToString(storyLimit) + ("_" + (IntToString(hoursBack) + ("_" + IntToString(window)))))
  {
  }

  /** Two keys are equal exactly when their three numbers are. */
  lemma CacheKeyInjective(a: int, b: int, c: int, a': int, b': int, c': int)
    ensures CacheKey(a, b, c) == CacheKey(a', b', c') <==> a == a' && b == b' && c == c'
  {
    if CacheKey(a, b, c) == CacheKey(a', b', c') {
      var rest := "_" + (IntToString(b) + ("_" + IntToString(c)));
      var rest' := "_" + (IntToString(b') + ("_" + IntToString(c')));
      assert IntToString(a) + rest == IntToString(a') + rest' by {
        CacheKeyParts(a, b, c);
        CacheKeyParts(a', b', c');
        CancelPrefix("digest_", IntToString(a) + rest, IntToString(a') + rest');
      }
      assert a == a' && IntToString(b) + ("_" + IntToString(c)) == IntToString(b') + ("_" + IntToString(c')) by {
        NumberBeforeSeparator(a, a', rest, rest');
        CancelPrefix("_", IntToString(b) + ("_" + IntToString(c)), IntToString(b') + ("_" + IntToString(c')));
      }
      assert b == b' && IntToString(c) == IntToString(c') by {
        NumberBeforeSeparator(b, b', "_" + IntToString(c), "_" + IntToString(c'));
        CancelPrefix("_", IntToString(c), IntToString(c'));
      }
      IntToStringInjective(c, c');
    }
  }
}
