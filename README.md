# hackernews-digest, modelled in Dafny

This project models the deterministic core of the HackerNews AI digest service in Dafny and proves properties of that model. The service works in six steps:

1. It fetches the top HackerNews stories.
2. It keeps the recent ones and ranks them by score.
3. It keeps the tech-related ones, using keyword and domain tables.
4. It asks a language model for one summary per story, and for an overview.
5. It groups the stories into eight categories, where the first matching rule wins.
6. It caches the resulting digest object.

There are two caches:

- an in-process map with a 45-minute ttl (`cache.js`);
- a PocketBase collection (`pb-cache.js`).

The HTTP route checks authentication and the request parameters before it runs the pipeline.

Inputs and state:

- Everything outside the program is an input of the model: the HackerNews API, the language model, PocketBase's failures, the clock and the environment.
- The clock is an input, in milliseconds. Most operations read it once, as `now`. Two operations read it again after network requests: `generateDigest`'s `set` reads it as `storedAt`, and PocketBase `set`'s cleanup reads it as `cleanupAt`.
- ISO timestamps are those millisecond values. The `toDateString()` text is an opaque string.
- Three things are state, modelled as classes whose methods change their fields:
  - the in-memory cache (`MemoryCache.DigestCache`, a `map`);
  - the PocketBase collection (`PersistedCache.PocketBaseCache`, a `seq` of records);
  - the module-level OpenAI client (`Ai.AiClient`).

Files, one module each:

| file | module | models |
|---|---|---|
| `wrappers.dfy` | `Wrappers` | Option, Result and Outcome |
| `text.dfy` | `Text` | the string primitives the source relies on: ASCII `toLowerCase`, `includes`, `\b(…)\b` word matching, decimal printing of numbers in template literals |
| `seqs.dfy` | `Seqs` | `filter`, `some` and `slice(0, n)`, including a negative `n` |
| `hackernews.dfy` | `HackerNews` | `hackernews.js` |
| `filter.dfy` | `TechFilter` | `filter.js` |
| `ai.dfy` | `Ai` | `ai.js` |
| `digest.dfy` | `Digests` | the digest object, and the cache key format both caches share |
| `memorycache.dfy` | `MemoryCache` | `cache.js` |
| `persistedcache.dfy` | `PersistedCache` | `pb-cache.js` |
| `agent.dfy` | `Agent` | `digest-agent.js` |
| `digestroute.dfy` | `DigestRoute` | `routes/api/digest/+server.js` |

Observations the proofs make explicit:

- The in-memory key changes every 30 minutes, but the ttl is 45 minutes. An entry found under its own key is therefore never expired (`MemoryCache.SameBucketNeverExpired`).
- The persisted cache uses one ttl as its bucket. It defaults with `||`, so a story limit of 0 means 12 there but not in the in-memory cache (`PersistedCache.ZeroIsDefaultOnlyHere`).
- `get`'s expiry test (`> ttl`) and the statistics (`< ttl`) disagree at an age of exactly one ttl. If a record of that age is the newest under its key and its digest is readable, `get` serves it while the statistics count it as expired. The in-memory statistics count such an entry as fresh (`PersistedCache.TtlBoundaryDiffers`). `get` only reaches such a record when the record's `created` lags the application's clock. A record created at the application's own clock reading sits in an earlier bucket's key once it is one ttl old, so `get` never consults it (`PersistedCache.SameBucketIsFresh`).
- Keyword relevance is plain substring search, while categories use whole words. So "email" counts as a tech keyword hit (`ai`) but is not in AI & ML (`TechFilter.SubstringVersusWord`).
- Only the persisted cache strips the API key before storing (`pb-cache.js` lines 152-158). The in-memory cache stores the digest together with `config.openaiApiKey`.

## Model

| member | source | states |
|---|---|---|
| Text.Lower | src/lib/services/filter.js:55-56 | ASCII lowercasing keeps the length of the string |
| Text.LowerAt | src/lib/services/filter.js:55-56 | each character of the lowercased string is the lowercased character |
| Text.LowerOfLower | src/lib/services/filter.js:55-60 | a string with no upper-case letter, such as each keyword, is unchanged by lowercasing |
| Text.LowerIsLower | src/lib/services/filter.js:55-56 | the lowercased string contains no upper-case letter |
| Text.IncludesHasOccurrence | src/lib/services/filter.js:59-66 | if `includes` holds, the substring occurs at some index |
| Text.OccurrenceIncludes | src/lib/services/filter.js:59-66 | an occurrence at any index makes `includes` true |
| Text.IncludesIffOccurs | src/lib/services/filter.js:59-66 | `includes` holds exactly when the substring occurs at some index |
| Text.SomeWordAtIff | src/lib/services/filter.js:102-138 | an alternative matches at index i iff one of the words sits there between word boundaries |
| Text.MatchFromIff | src/lib/services/filter.js:102-138 | the scan from index i finds a match iff some whole-word occurrence starts at or after i |
| Text.MatchesWordIff | src/lib/services/filter.js:102-138 | `\b(w1\|…)\b` matches iff some word occurs bounded by non-word characters or the ends |
| Text.NatToString | src/lib/services/cache.js:25 | decimal printing yields at least one digit, and only digits |
| Text.IntToString | src/lib/services/cache.js:25 | a printed integer consists of digits and minus signs only |
| Text.IntToStringSign | src/lib/services/cache.js:25 | a printed integer starts with a minus sign iff it is negative |
| Text.NatToStringInjective | src/lib/services/cache.js:25 | different naturals print differently |
| Text.IntToStringInjective | src/lib/services/cache.js:25 | different integers print differently |
| Text.NumberBeforeSeparator | src/lib/services/cache.js:25 | a number followed by a non-digit separator can be read back uniquely |
| Seqs.Filter | src/lib/services/filter.js:76-78 | `filter` keeps exactly the elements satisfying the predicate, and is never longer than its input |
| Seqs.FilterAppend | src/lib/services/filter.js:76-78 | filtering distributes over concatenation, which is what keeping the input order means |
| Seqs.FilterMultiset | src/lib/services/hackernews.js:83 | a filtered list is a sub-multiset of its input |
| Seqs.FilterSplit | src/lib/services/pb-cache.js:272-276 | filtering by a predicate and by its negation splits the list, so the two lengths add up |
| Seqs.AnyIff | src/lib/services/filter.js:59-66 | `some` holds iff some element satisfies the predicate |
| Seqs.SliceEnd | src/lib/services/hackernews.js:17 | the end index of `slice(0, n)`: n clamped to the length, counted from the end when negative |
| Seqs.SliceTo | src/lib/services/hackernews.js:17 | `slice(0, n)` is the prefix of that length |
| HackerNews.GetTopStoryIds | src/lib/services/hackernews.js:13-22 | a failed fetch propagates; otherwise the result is the first min(limit, n) ids, in order |
| HackerNews.GetStory | src/lib/services/hackernews.js:29-52 | a story is returned iff the item exists, has type `story` and a non-empty url; score and comments default to 0 and text to the empty string; id, url, time and the author (`by`, possibly absent) are copied |
| HackerNews.GetStories | src/lib/services/hackernews.js:59-65 | never more stories than ids; every story is the admitted item of some id |
| HackerNews.GetStoriesAppend | src/lib/services/hackernews.js:59-65 | fetching a concatenation of id lists concatenates the results, so id order is kept |
| HackerNews.GetStoriesSingle | src/lib/services/hackernews.js:59-65 | a single id contributes its story exactly when the item is admitted, so only null results are dropped |
| HackerNews.InsertByScore | src/lib/services/hackernews.js:86-87 | one insertion step of the score sort keeps the multiset of stories |
| HackerNews.InsertByScoreSorted | src/lib/services/hackernews.js:86-87 | inserting into a list sorted by non-increasing score keeps it sorted |
| HackerNews.SortByScore | src/lib/services/hackernews.js:86-87 | `sort((a, b) => b.score - a.score)` is a permutation sorted by non-increasing score |
| HackerNews.InsertByScoreStable | src/lib/services/hackernews.js:86-87 | an insertion keeps the relative order of stories with equal scores |
| HackerNews.SortByScoreStable | src/lib/services/hackernews.js:86-87 | the sort is stable: stories of one score keep their input order |
| HackerNews.SortSortedIsIdentity | src/lib/services/hackernews.js:86-87 | sorting a list that is already sorted changes nothing |
| HackerNews.FilterSorted | src/lib/services/filter.js:76-78 | filtering a sorted list leaves it sorted |
| HackerNews.SortedCut | src/lib/services/hackernews.js:86-88 | cutting a sorted list leaves nothing after the cut outscoring anything before it |
| HackerNews.TopByScoreShape | src/lib/digest-agent.js:58-60 | the top stories are sorted, of length min(limit, n), and drawn from the input |
| HackerNews.TopByScoreOutscoresRest | src/lib/services/hackernews.js:86-88 | the ranked stories are the top ones followed by stories that score no higher |
| HackerNews.GetTrendingStories | src/lib/services/hackernews.js:73-94 | fails only if the id fetch fails. Otherwise the result is the top `min(limit, n)` of the n recent stories by score, where recent means `time >= floor(now / 1000) - hours * 3600` and the stories come from the first 50 ids. It is sorted, and no recent story left out scores higher than a story kept |
| TechFilter.SomeKeywordInIff | src/lib/services/filter.js:59-61 | the keyword check holds iff some lowercased keyword occurs in the title |
| TechFilter.SomeDomainInIff | src/lib/services/filter.js:64-66 | the domain check holds iff some domain pattern occurs in the url |
| TechFilter.RelevantIff | src/lib/services/filter.js:52-69 | relevance for any tables is: title and url non-empty, and a keyword or a domain occurs |
| TechFilter.IsTechStoryIff | src/lib/services/filter.js:7-69 | with the source's tables, a story is tech iff its title and url are non-empty and its lowercased title contains a keyword or its lowercased url a domain pattern |
| TechFilter.FilterTechStories | src/lib/services/filter.js:76-78 | a story is in the result iff it is in the input and is tech; the result is a sub-multiset of the input |
| TechFilter.FilterTechStoriesAppend | src/lib/services/filter.js:76-78 | the filter keeps the input's relative order |
| TechFilter.CategoryIndex | src/lib/services/filter.js:86-95 | every category has a position in the fixed category list |
| TechFilter.AllCategoriesDistinct | src/lib/services/filter.js:86-95 | the eight categories are distinct |
| TechFilter.FirstMatchIsSomeRule | src/lib/services/filter.js:101-146 | the first match is one of the rules' categories or the fallback |
| TechFilter.FirstMatchIff | src/lib/services/filter.js:101-146 | a title gets rule r's category iff rule r matches and no earlier rule does |
| TechFilter.FirstMatchFallback | src/lib/services/filter.js:143-146 | a title gets the fallback iff no rule matches |
| TechFilter.CategoryOfChain | src/lib/services/filter.js:98-146 | the category is the source's if/else-if chain over the seven regular expressions |
| TechFilter.RulesAreWellFormed | src/lib/services/filter.js:101-141 | the seven rules name seven distinct categories other than General Tech |
| TechFilter.CategoryOfFirstMatch | src/lib/services/filter.js:101-141 | a story is in AI & ML … Hardware iff that rule matches its lowercased title and no earlier rule does |
| TechFilter.CategoryOfFallback | src/lib/services/filter.js:143-146 | a story is in General Tech iff none of the seven rules matches |
| TechFilter.BucketSnoc | src/lib/services/filter.js:97-147 | appending a story appends it to the bucket of its category and to no other |
| TechFilter.PushStory | src/lib/services/filter.js:98-146 | one round of the `forEach` body pushes the story onto its category's bucket and changes no other bucket |
| TechFilter.DropEmpty | src/lib/services/filter.js:149-154 | deleting the empty keys keeps exactly the non-empty buckets, unchanged |
| TechFilter.EmptyBuckets | src/lib/services/filter.js:86-95 | the initial object has all eight buckets, empty |
| TechFilter.PushStoryExtends | src/lib/services/filter.js:97-147 | after i+1 rounds every bucket holds the stories of its category among the first i+1 stories, in order |
| TechFilter.CategorizeTechStories | src/lib/services/filter.js:85-157 | a category is a key iff its bucket is non-empty, and each bucket lists that category's stories in input order |
| TechFilter.SumSizesCons | src/lib/services/filter.js:97-147 | a story adds one to the size of its category's bucket and to no other |
| TechFilter.EveryCategoryListed | src/lib/services/filter.js:86-95 | every category is a key of the initial object |
| TechFilter.EveryCategoryOnce | src/lib/services/filter.js:86-95 | every category is a key exactly once |
| TechFilter.BucketsPartition | src/lib/services/filter.js:97-147 | the bucket sizes add up to the number of stories: every story lands in exactly one bucket |
| TechFilter.InBucketIff | src/lib/services/filter.js:97-147 | a story is in a bucket iff that bucket is its category |
| TechFilter.WholeWordTitle | src/lib/services/filter.js:102 | a title made of word characters only matches an alternation exactly when it is one of the words |
| TechFilter.SubstringVersusWord | src/lib/services/filter.js:59-61 | "email" contains the keyword `ai` but does not match the AI & ML word pattern |
| Ai.ShapeSummary | src/lib/services/ai.js:74-108 | parsed JSON gives its own fields; unparseable text gives the fallback without `error`; a failed call gives the fallback with `error` set to the message; the story and timestamp are always attached |
| Ai.FallbackUsesTitleScoreComments | src/lib/services/ai.js:84-107 | the fallback depends only on the title, score and comment count |
| Ai.FallbackTextDistinguishesCounts | src/lib/services/ai.js:88 | for one title, the fallback summary text determines the score and the comment count |
| Ai.ShapeStories | src/lib/services/ai.js:116-119 | one summary per story, summary i being that of story i |
| Ai.ShapeStoriesCarriesStories | src/lib/services/ai.js:116-119 | summary i carries story i as its original story |
| Ai.FallbackOverviewDistinguishesCounts | src/lib/services/ai.js:178 | the fallback overview text determines the story count |
| Ai.ShapeOverview | src/lib/services/ai.js:166-183 | the overview always carries the count and date; a failed call gives the count-only fallback text plus `error` |
| Ai.AiClient.constructor | src/lib/services/ai.js:8 | the client starts out absent |
| Ai.AiClient.InitializeOpenAI | src/lib/services/ai.js:15-23 | a missing or empty key throws and leaves the client unchanged; otherwise the client is set |
| Ai.AiClient.SummarizeStory | src/lib/services/ai.js:30-109 | throws iff no client exists. Otherwise it gives the summary that `ShapeSummary` makes of the backend's reply: the parsed fields, the fallback when the reply does not parse, or the fallback with the error when the call failed. It carries the story and is stamped now |
| Ai.AiClient.SummarizeStories | src/lib/services/ai.js:116-119 | throws iff no client exists and the list is non-empty (an empty list maps to the empty list without calling `summarizeStory`); otherwise position i is `summarizeStory` of story i |
| Ai.AiClient.GenerateDigestOverview | src/lib/services/ai.js:127-185 | throws iff no client exists; otherwise the shaped overview, with `story_count` equal to the number of summaries |
| Digests.WithoutKey | src/lib/services/pb-cache.js:153-158 | deleting `openaiApiKey` leaves the other configuration fields |
| Digests.RoundMinutesNearest | src/lib/services/cache.js:59 | the minute age is within half a minute of the exact age |
| Digests.CacheKeyInjective | src/lib/services/cache.js:25 | two cache keys are equal iff their three numbers are |
| MemoryCache.GenerateKeyIff | src/lib/services/cache.js:17-26 | two requests share a key iff their defaulted limit and hours and their 30-minute buckets agree |
| MemoryCache.LookupMiss | src/lib/services/cache.js:34-39 | with no entry under the key, `get` returns null and leaves the map |
| MemoryCache.LookupExpired | src/lib/services/cache.js:42-47 | an expired entry yields null and is removed, and every other entry stays |
| MemoryCache.LookupHit | src/lib/services/cache.js:51-61 | a fresh entry is served with `cached = true`, its stored `generated_at` and `served_at = now`, and the map is unchanged |
| MemoryCache.SweepExact | src/lib/services/cache.js:96-105 | the cleanup keeps exactly the entries with `now - timestamp <= ttl`, unchanged |
| MemoryCache.SweepIdempotent | src/lib/services/cache.js:96-105 | a second cleanup at the same instant removes nothing |
| MemoryCache.SetThenGet | src/lib/services/cache.js:33-91 | `set` then `get` at the same instant returns the digest with hit metadata and age 0, unless the ttl is negative |
| MemoryCache.SameBucketNeverExpired | src/lib/services/cache.js:17-47 | under the default ttl, an entry written in the current 30-minute bucket is not expired |
| MemoryCache.NextBucketMisses | src/lib/services/cache.js:23 | one millisecond later, in the next bucket, the key differs even though the entry is still fresh |
| MemoryCache.StatsPartition | src/lib/services/cache.js:129-136 | fresh plus expired entries is all entries |
| MemoryCache.DigestCache.constructor | src/lib/services/cache.js:7-9 | the cache starts out empty |
| MemoryCache.DigestCache.Get | src/lib/services/cache.js:33-62 | `get` returns the lookup result and deletes only an expired entry under its key |
| MemoryCache.DigestCache.Set | src/lib/services/cache.js:70-91 | `set` inserts under the key, overwriting, with ttl `ttl \|\| 45 min`, then sweeps |
| MemoryCache.DigestCache.Cleanup | src/lib/services/cache.js:96-110 | the loop deletes exactly the expired entries |
| MemoryCache.DigestCache.Clear | src/lib/services/cache.js:115-119 | the map is empty afterwards |
| MemoryCache.DigestCache.GetStats | src/lib/services/cache.js:125-142 | counts of all, fresh and expired entries, summing up; the oldest age is 0 when empty, otherwise the rounded age of an entry with the smallest timestamp |
| PersistedCache.OrDefault | src/lib/services/pb-cache.js:19-20 | `v \|\| d` gives d for a missing value and for 0 |
| PersistedCache.GenerateKeyIff | src/lib/services/pb-cache.js:18-36 | two requests share a key iff their `\|\|`-defaulted numbers and 45-minute buckets agree |
| PersistedCache.ZeroIsDefaultOnlyHere | src/lib/services/pb-cache.js:19-20 | a limit of 0 gets the default key here, but a different key in the in-memory cache |
| PersistedCache.Newest | src/lib/services/pb-cache.js:79-82 | the record consulted has the key and the latest creation time among them; none exists iff no record has the key |
| PersistedCache.Lookup | src/lib/services/pb-cache.js:38-147 | null on any failure or when no record has the key. When the newest record with the key is unexpired and its digest parses, that digest is returned with `cache_info` (`generated_at = created`), and a hit is never anything else |
| PersistedCache.NewestIsLatest | src/lib/services/pb-cache.js:79-82 | a record strictly newer than all others with its key is the one consulted |
| PersistedCache.NewRecord | src/lib/services/pb-cache.js:151-164 | the stored params and the stored digest's config lack the API key, and nothing else of the digest changes |
| PersistedCache.PruneExact | src/lib/services/pb-cache.js:200-223 | cleanup deletes exactly the records with the key, created before the cutoff, other than the new record, except those whose deletion failed |
| PersistedCache.WrittenEndsWithNew | src/lib/services/pb-cache.js:174-227 | after a successful create the collection ends with the new record: cleanup never deletes it |
| PersistedCache.SetThenGet | src/lib/services/pb-cache.js:38-234 | `get` at the instant of a successful `set` returns the digest without its key, with a zero-minute-old `cache_info`, whatever clock reading the cleanup used |
| PersistedCache.LookupFreshRecord | src/lib/services/pb-cache.js:97-116 | a consulted record created at the instant of the lookup is served with age 0 |
| PersistedCache.NewestOfSnoc | src/lib/services/pb-cache.js:79-82 | a record appended last, at least as new as the others with its key, is consulted |
| PersistedCache.SameBucketIsFresh | src/lib/services/pb-cache.js:14-87 | a record created in the current 45-minute bucket is younger than the ttl |
| PersistedCache.OldestMinutesIsMax | src/lib/services/pb-cache.js:278-281 | the oldest age bounds every record's floored age and is 0 or one of them |
| PersistedCache.StatsPartition | src/lib/services/pb-cache.js:272-276 | fresh (age < ttl) plus expired records is all records |
| PersistedCache.StatsSnoc | src/lib/services/pb-cache.js:268-283 | one `reduce` step adds one to exactly one count and takes the maximum age |
| PersistedCache.TtlBoundaryDiffers | src/lib/services/pb-cache.js:86-276 | at age exactly one ttl, an entry is fresh in the in-memory stats and expired in the persisted stats. A newest readable record of that age is still returned by the persisted `get` |
| PersistedCache.PocketBaseCache.constructor | src/lib/services/pb-cache.js:4-16 | the model's collection starts out empty, with no ids used |
| PersistedCache.PocketBaseCache.Get | src/lib/services/pb-cache.js:38-147 | `get` is the lookup and never throws |
| PersistedCache.PocketBaseCache.Set | src/lib/services/pb-cache.js:149-234 | `set` never throws. A failed create leaves the collection. A successful one appends the stripped record with an id no existing record has, and cleans up unless the read-back or the listing failed. The cleanup's cutoff is one ttl before its own clock reading `cleanupAt`. The caller's digest loses its config key |
| PersistedCache.PocketBaseCache.Clear | src/lib/services/pb-cache.js:236-257 | every record whose deletion succeeds goes; it reports failure iff the listing failed or a record remains |
| PersistedCache.PocketBaseCache.GetStats | src/lib/services/pb-cache.js:259-305 | the `reduce` yields the number of records, the fresh and expired counts (summing up) and the oldest floored age; it throws iff the listing fails |
| Agent.Merge | src/lib/digest-agent.js:30 | every key the caller's config has overrides the default |
| Agent.MergedHasNumbers | src/lib/digest-agent.js:18-30 | the merged config always has a limit (15 by default) and hours back |
| Agent.SelectedAreTech | src/lib/digest-agent.js:54-60 | every selected story is a tech story of the trending list |
| Agent.SecondSortIsIdentity | src/lib/digest-agent.js:49-59 | the trending stories arrive sorted, so the pipeline's own sort changes nothing |
| Agent.CategorizedPartition | src/lib/digest-agent.js:69 | the categories are the non-empty buckets, and every selected story is in exactly one |
| Agent.PipelineNeedsKey | src/lib/digest-agent.js:42-49 | a missing key fails with the key message; otherwise the pipeline fails iff the id fetch fails |
| Agent.PipelineStats | src/lib/digest-agent.js:76-90 | `total_stories_fetched` is the number of trending stories and `tech_stories_found` the number of tech stories among them; the summary count equals `stories_summarized` and is bounded by the limit and by the tech count, which is bounded by the trending count, itself at most 50; `categories_found` is the number of categories, the overview counts the summaries, the full merged config is kept and no cache info is set |
| Agent.PipelineSummariesMatchCategories | src/lib/digest-agent.js:58-69 | summaries and categories come from the same selected list: summary i is about selected story i, and the categories partition that list |
| Agent.GenerateDigest | src/lib/digest-agent.js:29-104 | a hit returns the cached digest without touching the client. A miss runs the pipeline. Only a full digest is stored, under the merged config and under the key of the later reading `storedAt`, which may be a later 30-minute bucket than the lookup's (`MemoryCache.NextBucketMisses`). A failure stores nothing |
| DigestRoute.CheckRanges | src/routes/api/digest/+server.js:23-29 | a limit outside [1, 50] is a 400 with the limit message; then hours outside [1, 168] is a 400 with the hours message; otherwise generate |
| DigestRoute.DecideGet | src/routes/api/digest/+server.js:13-29 | unauthenticated is 401 before anything else; otherwise the range checks with defaults 12 and 24 |
| DigestRoute.DecidePost | src/routes/api/digest/+server.js:57-94 | unauthenticated is 401 before the body is read. A body that does not parse, or `null`, is the generic 500. A parsed non-object body takes both defaults. Otherwise the range checks run, with defaults 12 and 24 |
| DigestRoute.GetAndPostAgree | src/routes/api/digest/+server.js:13-71 | both handlers decide alike on the same parameters |
| DigestRoute.LimitCheckedFirst | src/routes/api/digest/+server.js:23-29 | a bad limit is reported whatever the hours are |
| DigestRoute.DefaultsGenerate | src/routes/api/digest/+server.js:19-62 | absent parameters mean limit 12 and hours 24, which pass |
| DigestRoute.ErrorResponse | src/routes/api/digest/+server.js:44-52 | an error mentioning "OpenAI API key" is the key-specific 500; any other error is the generic 500 |
| DigestRoute.Respond | src/routes/api/digest/+server.js:32-52 | a digest is a 200 with the digest as body; an error goes through the classification |
| DigestRoute.MissingKeyIsRecognised | src/lib/digest-agent.js:42-44 | the pipeline's missing-key error is the one singled out |
| DigestRoute.NoKeyGivesKeyError | src/routes/api/digest/+server.js:32-47 | with no key and nothing cached, every valid request ends in the key-specific 500 |
| DigestRoute.Handle | src/routes/api/digest/+server.js:31-53 | a rejection answers at once and changes no state. Otherwise it gives the response to the generated digest or error, and the resulting cache and client states, as `generateDigest` does |
| DigestRoute.HandleGet | src/routes/api/digest/+server.js:13-54 | `GET`: the decision. A rejection changes no state; otherwise the response, the cache and the client are as `generateDigest` leaves them |
| DigestRoute.HandlePost | src/routes/api/digest/+server.js:57-96 | `POST`: the decision. A rejection changes no state; otherwise the response, the cache and the client are as `generateDigest` leaves them |

## Left out

- Network, language-model and database calls are left out; their outcomes are inputs. The return shape of each is modelled: a failed fetch, an item, a reply that parses as JSON or not, a thrown error, or a PocketBase failure.
- `Promise.all` concurrency is modelled as position-wise maps. For the parallel deletes in `pb-cache.js`, any subset may fail.
- Console logging is left out. So are the debug-only reads in `pb-cache.js` at lines 49-74. A failure of the record dump (`getFullList`, line 49) is caught by `get`'s outer handler and gives `null` (lines 139-146); that is the `lookupFails` flag. A failure of the direct `fetch` is caught by its own handler (lines 55-61) and changes nothing, so it is not modelled.
- `set`'s read-back at `pb-cache.js:179-187` is modelled only by its effect when it fails: the cleanup is skipped.
- The calls to `this.authenticate()` (`pb-cache.js:240, 262`) are left out. That method does not exist in the class.
- `estimateSize` and `cache_size_mb` are left out, because they are floating-point size estimates over `JSON.stringify`.
- `saveDigestToFile`, `runDigestCLI`, the cron scheduler and the authentication hooks and routes are not part of this model. Neither are the cache routes.
- JSON serialisation is left out: `JSON.stringify` followed by `JSON.parse` is taken to give the digest back. Extra keys in a parsed reply are left out.
- `parseInt`, NaN, non-integer numbers and explicit `undefined` values are left out. A parameter is an integer or absent. A POST object field of the wrong type is left out.
- Text.Lower: only ASCII letters are lowercased. JavaScript's `toLowerCase` also maps non-ASCII letters, for example U+212A KELVIN SIGN to `k`. A keyword or domain hit that depends on such a mapping is not modelled.
- An item without a `time` is left out, and so is a title of `undefined` printed into the fallback text. A missing title or url is the empty string, which is falsy like `undefined`.
- The order of the keys of the categories object is left out; the model uses a `map`.
- The in-place `sort` of the tech stories is modelled on a sequence, as a stable insertion sort. JavaScript's `Array.prototype.sort` is stable.
- Agent.GenerateDigest: the lookup's key (`digest-agent.js` line 32), the recency cutoff (`hackernews.js` line 82), the summaries' and overview's stamps and the digest's id and timestamps (`digest-agent.js` lines 77-79) all share the reading `now`. Only the store (line 96) has its own reading, `storedAt`. In the source, the cutoff and the stamps are read at different moments during the network calls, seconds apart.
- PersistedCache.PocketBaseCache.Set: the key and the record's `created` share the reading `now`, and the cleanup cutoff has its own reading, `cleanupAt` (`pb-cache.js` line 202). The model does not constrain `cleanupAt` to be later than `now`.
- PersistedCache.Newest: when several records with the key have the same creation time, the model takes the one written last. PocketBase does not specify which one `sort: '-created'` returns first.
- PersistedCache.PocketBaseCache.Set: the record's `created` is the caller's clock reading `now`; in the source the PocketBase server sets it.
- PocketBase's string ids are modelled as fresh numbers.
- PersistedCache.PocketBaseCache.constructor: a missing `VITE_POCKETBASE_URL`, which makes the source constructor throw, is not modelled. The model starts from an empty collection, whereas the real collection persists across processes.
