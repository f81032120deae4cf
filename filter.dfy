/**
 * The relevance filter and the categoriser (src/lib/services/filter.js).
 * Relevance is plain substring containment over fixed keyword and domain
 * tables; categorisation is an ordered list of `\b(...)\b` word rules in
 * which the first rule that matches wins.
 */
module TechFilter {
  import opened Seqs
  import opened Text
  import opened HackerNews

  /** Words whose occurrence anywhere in a title marks a tech story. */
  const TechKeywords: seq<string> := [
    "javascript", "python", "react", "vue", "angular", "node", "typescript", "rust", "go", "java",
    "c++", "swift", "kotlin", "flutter", "docker", "kubernetes", "aws", "azure", "gcp",
    "ai", "artificial intelligence", "machine learning", "ml", "deep learning", "neural network",
    "chatgpt", "openai", "llm", "gpt", "claude", "gemini", "anthropic",
    "apple", "google", "microsoft", "amazon", "meta", "facebook", "twitter", "x.com", "tesla",
    "nvidia", "intel", "amd", "github", "gitlab", "vercel", "netlify",
    "web development", "mobile app", "ios", "android", "api", "rest", "graphql", "database",
    "postgresql", "mysql", "mongodb", "redis", "firebase",
    "cloud", "serverless", "microservices", "devops", "ci/cd", "deployment", "hosting",
    "blockchain", "crypto", "bitcoin", "ethereum", "web3", "nft", "metaverse", "vr", "ar",
    "quantum computing", "iot", "5g", "edge computing",
    "startup", "saas", "fintech", "edtech", "healthtech", "proptech", "venture capital", "vc",
    "ipo", "acquisition", "funding", "series a", "series b",
    "software", "hardware", "tech", "technology", "digital", "cyber", "data", "analytics",
    "algorithm", "open source", "framework", "library", "tool", "platform"]

  /** Fragments whose occurrence anywhere in a url marks a tech story. */
  const TechDomains: seq<string> := [
    "github.com", "stackoverflow.com", "medium.com", "dev.to", "techcrunch.com",
    "arstechnica.com", "theverge.com", "wired.com", "engadget.com", "venturebeat.com",
    "blog.", "docs.", "developer.", "api.", "engineering."]

  /** Some keyword, lower-cased, occurs in `title`: `keywords.some(k => title.includes(k.toLowerCase()))`. */
  predicate SomeKeywordIn(title: string, keywords: seq<string>) {
    Any(keywords, KeywordIn(title))
  }

  function KeywordIn(title: string): string -> bool {
    (k: string) => Includes(title, Lower(k))
  }

  function DomainIn(url: string): string -> bool {
    (d: string) => Includes(url, d)
  }

  /** Some domain fragment occurs in `url`: `domains.some(d => url.includes(d))`. */
  predicate SomeDomainIn(url: string, domains: seq<string>) {
    Any(domains, DomainIn(url))
  }

  /** `isTechStory`: a title and a url are both needed, then a keyword in the title or a domain in the url. */
  predicate IsTechStory(story: Story) {
    Relevant(story, TechKeywords, TechDomains)
  }

  /** The test of `isTechStory` over any keyword and domain tables. */
  predicate Relevant(story: Story, keywords: seq<string>, domains: seq<string>) {
    && story.title != "" && story.url != ""
    && (SomeKeywordIn(Lower(story.title), keywords) || SomeDomainIn(Lower(story.url), domains))
  }

  /** The keyword, lower-cased, occurs in `title` at position `i`. */
  predicate KeywordAt(title: string, keyword: string, i: int) {
    OccursAt(title, Lower(keyword), i)
  }

  lemma KeywordWitness(title: string, keywords: seq<string>) returns (k: int, i: int)
    requires SomeKeywordIn(title, keywords)
    ensures 0 <= k < |keywords| && KeywordAt(title, keywords[k], i)
  {
    AnyIff(keywords, KeywordIn(title));
    k :| 0 <= k < |keywords| && KeywordIn(title)(keywords[k]);
    i := IncludesHasOccurrence(title, Lower(keywords[k]));
  }

  lemma KeywordFromWitness(title: string, keywords: seq<string>, k: int, i: int)
    requires 0 <= k < |keywords| && KeywordAt(title, keywords[k], i)
    ensures SomeKeywordIn(title, keywords)
  {
    OccurrenceIncludes(title, Lower(keywords[k]), i);
    assert KeywordIn(title)(keywords[k]);
    AnyIff(keywords, KeywordIn(title));
  }

  lemma SomeKeywordInIff(title: string, keywords: seq<string>)
    ensures SomeKeywordIn(title, keywords) <==> KeywordOccurs(title, keywords)
  {
    if SomeKeywordIn(title, keywords) {
      var k, i := KeywordWitness(title, keywords);
    }
    if k, i :| 0 <= k < |keywords| && KeywordAt(title, keywords[k], i) {
      KeywordFromWitness(title, keywords, k, i);
    }
  }

  lemma DomainWitness(url: string, domains: seq<string>) returns (d: int, i: int)
    requires SomeDomainIn(url, domains)
    ensures 0 <= d < |domains| && OccursAt(url, domains[d], i)
  {
    AnyIff(domains, DomainIn(url));
    d :| 0 <= d < |domains| && DomainIn(url)(domains[d]);
    i := IncludesHasOccurrence(url, domains[d]);
  }

  lemma DomainFromWitness(url: string, domains: seq<string>, d: int, i: int)
    requires 0 <= d < |domains| && OccursAt(url, domains[d], i)
    ensures SomeDomainIn(url, domains)
  {
    OccurrenceIncludes(url, domains[d], i);
    assert DomainIn(url)(domains[d]);
    AnyIff(domains, DomainIn(url));
  }

  lemma SomeDomainInIff(url: string, domains: seq<string>)
    ensures SomeDomainIn(url, domains) <==> DomainOccurs(url, domains)
  {
    if SomeDomainIn(url, domains) {
      var d, i := DomainWitness(url, domains);
    }
    if d, i :| 0 <= d < |domains| && OccursAt(url, domains[d], i) {
      DomainFromWitness(url, domains, d, i);
    }
  }

  /** Some keyword of the table, lower-cased, occurs somewhere in `title`. */
  ghost predicate KeywordOccurs(title: string, keywords: seq<string>) {
    exists k, i :: 0 <= k < |keywords| && KeywordAt(title, keywords[k], i)
  }

  /** Some domain fragment of the table occurs somewhere in `url`. */
  ghost predicate DomainOccurs(url: string, domains: seq<string>) {
    exists d, i :: 0 <= d < |domains| && OccursAt(url, domains[d], i)
  }

  lemma RelevantIff(story: Story, keywords: seq<string>, domains: seq<string>)
    ensures Relevant(story, keywords, domains) <==>
      && story.title != "" && story.url != ""
      && (KeywordOccurs(Lower(story.title), keywords) || DomainOccurs(Lower(story.url), domains))
  {
    SomeKeywordInIff(Lower(story.title), keywords);
    SomeDomainInIff(Lower(story.url), domains);
  }

  /**
   * A story is a tech story exactly when it has a title and a url and some
   * keyword occurs in its lower-cased title or some domain fragment occurs in
   * its lower-cased url, at any position and without regard to word boundaries.
   */
  lemma IsTechStoryIff(story: Story)
    ensures IsTechStory(story) <==>
      && story.title != "" && story.url != ""
      && (KeywordOccurs(Lower(story.title), TechKeywords) || DomainOccurs(Lower(story.url), TechDomains))
  {
    RelevantIff(story, TechKeywords, TechDomains);
  }

  /** `filterTechStories`: the tech stories of the input, in input order. */
  function FilterTechStories(stories: seq<Story>): (r: seq<Story>)
    ensures forall x :: x in r <==> x in stories && IsTechStory(x)
    ensures multiset(r) <= multiset(stories)
  {
    FilterMultiset(stories, IsTechStory);
    Filter(stories, IsTechStory)
  }

  /** Filtering a concatenation filters each part, so the survivors keep their relative order. */
  lemma FilterTechStoriesAppend(a: seq<Story>, b: seq<Story>)
    ensures FilterTechStories(a + b) == FilterTechStories(a) + FilterTechStories(b)
  {
    FilterAppend(a, b, IsTechStory);
  }

  /** The keys of the categoriser's result, in declaration order. */
  datatype Category =
    | AiMl
    | WebDevelopment
    | Mobile
    | CloudInfrastructure
    | StartupsBusiness
    | Security
    | Hardware
    | GeneralTech
  {
    /** The property name the category has in the returned object. */
    function Name(): string {
      match this
      case AiMl => "AI & ML"
      case WebDevelopment => "Web Development"
      case Mobile => "Mobile"
      case CloudInfrastructure => "Cloud & Infrastructure"
      case StartupsBusiness => "Startups & Business"
      case Security => "Security"
      case Hardware => "Hardware"
      case GeneralTech => "General Tech"
    }
  }

  const AllCategories: seq<Category> :=
    [AiMl, WebDevelopment, Mobile, CloudInfrastructure, StartupsBusiness, Security, Hardware, GeneralTech]

  /** The position of a category in `AllCategories`. */
  function CategoryIndex(c: Category): (k: nat)
    ensures k < |AllCategories| && AllCategories[k] == c
  {
    match c
    case AiMl => 0
    case WebDevelopment => 1
    case Mobile => 2
    case CloudInfrastructure => 3
    case StartupsBusiness => 4
    case Security => 5
    case Hardware => 6
    case GeneralTech => 7
  }

  lemma AllCategoriesDistinct()
    ensures forall a, b :: 0 <= a < b < |AllCategories| ==> AllCategories[a] != AllCategories[b]
  {
  }

  /** One `if (title.match(/\b(words)\b/))` test of the categoriser. */
  datatype Rule = Rule(category: Category, words: seq<string>)

  const AiWords: seq<string> :=
    ["ai", "artificial intelligence", "machine learning", "ml", "deep learning", "neural",
     "gpt", "llm", "openai", "anthropic", "claude"]
  const WebWords: seq<string> :=
    ["javascript", "react", "vue", "angular", "web", "frontend", "backend", "api", "database"]
  const MobileWords: seq<string> :=
    ["ios", "android", "mobile", "app", "flutter", "swift", "kotlin"]
  const CloudWords: seq<string> :=
    ["cloud", "aws", "azure", "gcp", "docker", "kubernetes", "serverless", "devops"]
  const StartupWords: seq<string> :=
    ["startup", "funding", "ipo", "acquisition", "saas", "fintech", "venture"]
  const SecurityWords: seq<string> :=
    ["security", "cyber", "breach", "hack", "vulnerability", "privacy"]
  const HardwareWords: seq<string> :=
    ["hardware", "chip", "processor", "nvidia", "intel", "amd", "quantum"]

  /** The rules in the order the `if … else if …` chain tries them; General Tech is the fallback. */
  const Rules: seq<Rule> := [
    Rule(AiMl, AiWords),
    Rule(WebDevelopment, WebWords),
    Rule(Mobile, MobileWords),
    Rule(CloudInfrastructure, CloudWords),
    Rule(StartupsBusiness, StartupWords),
    Rule(Security, SecurityWords),
    Rule(Hardware, HardwareWords)]

  /** The category of the first rule whose words match `title`, or General Tech. */
  function FirstMatch(title: string, rules: seq<Rule>): Category {
    if rules == [] then GeneralTech
    else if MatchesWord(title, rules[0].words) then rules[0].category
    else FirstMatch(title, rules[1..])
  }

  /** Rules name pairwise different categories, none of them the fallback. */
  predicate RulesWellFormed(rules: seq<Rule>) {
    (forall q :: 0 <= q < |rules| ==> rules[q].category != GeneralTech)
    && forall q, r :: 0 <= q < r < |rules| ==> rules[q].category != rules[r].category
  }

  /** The first-match result is the fallback or the category of one of the rules. */
  lemma {:induction false} FirstMatchIsSomeRule(title: string, rules: seq<Rule>)
    ensures FirstMatch(title, rules) == GeneralTech
         || exists q :: 0 <= q < |rules| && FirstMatch(title, rules) == rules[q].category
  {
    if rules != [] && !MatchesWord(title, rules[0].words) {
      FirstMatchIsSomeRule(title, rules[1..]);
      if q :| 0 <= q < |rules[1..]| && FirstMatch(title, rules[1..]) == rules[1..][q].category {
        assert rules[1..][q] == rules[q + 1];
      }
    }
  }

  lemma {:induction false} FirstMatchIff(title: string, rules: seq<Rule>, r: int)
    requires RulesWellFormed(rules)
    requires 0 <= r < |rules|
    ensures FirstMatch(title, rules) == rules[r].category <==>
      MatchesWord(title, rules[r].words) && forall q :: 0 <= q < r ==> !MatchesWord(title, rules[q].words)
  {
    if r == 0 {
      if !MatchesWord(title, rules[0].words) {
        var tail := rules[1..];
        FirstMatchIsSomeRule(title, tail);
        if q :| 0 <= q < |tail| && FirstMatch(title, tail) == tail[q].category {
          assert tail[q] == rules[q + 1];
        }
      }
    } else {
      if !MatchesWord(title, rules[0].words) {
        var tail := rules[1..];
        assert RulesWellFormed(tail) by {
          assert forall q :: 0 <= q < |tail| ==> tail[q] == rules[q + 1];
        }
        FirstMatchIff(title, tail, r - 1);
        assert tail[r - 1] == rules[r];
        forall q | 0 <= q < r - 1 ensures tail[q] == rules[q + 1] {}
        assert (forall q :: 0 <= q < r ==> !MatchesWord(title, rules[q].words)) <==>
               (forall q :: 0 <= q < r - 1 ==> !MatchesWord(title, tail[q].words));
      }
    }
  }

  lemma {:induction false} FirstMatchFallback(title: string, rules: seq<Rule>)
    requires RulesWellFormed(rules)
    ensures FirstMatch(title, rules) == GeneralTech <==>
      forall q :: 0 <= q < |rules| ==> !MatchesWord(title, rules[q].words)
  {
    if rules != [] {
      var tail := rules[1..];
      assert RulesWellFormed(tail) by {
        assert forall q :: 0 <= q < |tail| ==> tail[q] == rules[q + 1];
      }
      FirstMatchFallback(title, tail);
      assert forall q :: 0 < q < |rules| ==> rules[q] == tail[q - 1];
    }
  }

  /** The category `categorizeTechStories` gives a story with this title. */
  function CategoryOf(title: string): Category {
    FirstMatch(Lower(title), Rules)
  }

  lemma FirstMatchStep(title: string, rules: seq<Rule>, k: int)
    requires 0 <= k < |rules|
    ensures FirstMatch(title, rules[k..]) ==
      if MatchesWord(title, rules[k].words) then rules[k].category else FirstMatch(title, rules[k + 1..])
  {
    assert rules[k..][0] == rules[k];
    assert rules[k..][1..] == rules[k + 1..];
  }

  /** `CategoryOf` unrolled into the `if … else if …` chain of the source. */
  lemma CategoryOfChain(title: string)
    ensures CategoryOf(title) ==
      var t := Lower(title);
      if MatchesWord(t, AiWords) then AiMl
      else if MatchesWord(t, WebWords) then WebDevelopment
      else if MatchesWord(t, MobileWords) then Mobile
      else if MatchesWord(t, CloudWords) then CloudInfrastructure
      else if MatchesWord(t, StartupWords) then StartupsBusiness
      else if MatchesWord(t, SecurityWords) then Security
      else if MatchesWord(t, HardwareWords) then Hardware
      else GeneralTech
  {
    var t := Lower(title);
    assert Rules[0..] == Rules;
    FirstMatchStep(t, Rules, 0);
    FirstMatchStep(t, Rules, 1);
    FirstMatchStep(t, Rules, 2);
    FirstMatchStep(t, Rules, 3);
    FirstMatchStep(t, Rules, 4);
    FirstMatchStep(t, Rules, 5);
    FirstMatchStep(t, Rules, 6);
    assert Rules[7..] == [];
  }

  function InCategory(c: Category): Story -> bool {
    (x: Story) => CategoryOf(x.title) == c
  }

  lemma RulesAreWellFormed()
    ensures RulesWellFormed(Rules)
  {
  }

  /**
   * First match wins: a story goes to the category of rule `r` exactly when
   * rule `r` matches its lower-cased title and no earlier rule does.
   */
  lemma CategoryOfFirstMatch(title: string, r: int)
    requires 0 <= r < |Rules|
    ensures CategoryOf(title) == Rules[r].category <==>
      MatchesWord(Lower(title), Rules[r].words)
      && forall q :: 0 <= q < r ==> !MatchesWord(Lower(title), Rules[q].words)
  {
    RulesAreWellFormed();
    FirstMatchIff(Lower(title), Rules, r);
  }

  /** A story goes to General Tech exactly when no rule matches its lower-cased title. */
  lemma CategoryOfFallback(title: string)
    ensures CategoryOf(title) == GeneralTech <==>
      forall q :: 0 <= q < |Rules| ==> !MatchesWord(Lower(title), Rules[q].words)
  {
    RulesAreWellFormed();
    FirstMatchFallback(Lower(title), Rules);
  }

  /** The bucket of category `c`: the stories of that category, in input order. */
  function Bucket(stories: seq<Story>, c: Category): seq<Story> {
    Filter(stories, InCategory(c))
  }

  lemma BucketSnoc(stories: seq<Story>, x: Story, c: Category)
    ensures Bucket(stories + [x], c) == Bucket(stories, c) + (if CategoryOf(x.title) == c then [x] else [])
  {
    FilterAppend(stories, [x], InCategory(c));
    FilterSingle(x, InCategory(c));
  }

  /** A bucket map that has every category as a key. */
  predicate Complete(buckets: map<Category, seq<Story>>) {
    forall c :: c in buckets
  }

  /**
   * The body of the `forEach` callback: the `if … else if …` chain pushes
   * `story` onto the bucket of its category, General Tech when the
   * `categorized` flag stayed false.
   */
  method PushStory(buckets: map<Category, seq<Story>>, story: Story) returns (next: map<Category, seq<Story>>)
    requires Complete(buckets)
    ensures Complete(next)
    ensures next[CategoryOf(story.title)] == buckets[CategoryOf(story.title)] + [story]
    ensures forall c :: c != CategoryOf(story.title) ==> next[c] == buckets[c]
  {
    var title := Lower(story.title);
    var categorized := false;
    next := buckets;
    if MatchesWord(title, AiWords) {
      next := next[AiMl := next[AiMl] + [story]];
      categorized := true;
    } else if MatchesWord(title, WebWords) {
      next := next[WebDevelopment := next[WebDevelopment] + [story]];
      categorized := true;
    } else if MatchesWord(title, MobileWords) {
      next := next[Mobile := next[Mobile] + [story]];
      categorized := true;
    } else if MatchesWord(title, CloudWords) {
      next := next[CloudInfrastructure := next[CloudInfrastructure] + [story]];
      categorized := true;
    } else if MatchesWord(title, StartupWords) {
      next := next[StartupsBusiness := next[StartupsBusiness] + [story]];
      categorized := true;
    } else if MatchesWord(title, SecurityWords) {
      next := next[Security := next[Security] + [story]];
      categorized := true;
    } else if MatchesWord(title, HardwareWords) {
      next := next[Hardware := next[Hardware] + [story]];
      categorized := true;
    }
    if !categorized {
      next := next[GeneralTech := next[GeneralTech] + [story]];
    }
    CategoryOfChain(story.title);
  }

  /** The second loop: every key whose bucket is empty is deleted, the others are kept. */
  method DropEmpty(buckets: map<Category, seq<Story>>) returns (categories: map<Category, seq<Story>>)
    requires Complete(buckets)
    ensures forall c :: c in categories <==> buckets[c] != []
    ensures forall c :: c in categories ==> categories[c] == buckets[c]
  {
    categories := buckets;
    AllCategoriesDistinct();
    for j := 0 to |AllCategories|
      invariant forall c :: c in categories ==> categories[c] == buckets[c]
      invariant forall k :: j <= k < |AllCategories| ==> AllCategories[k] in categories
      invariant forall k :: 0 <= k < j ==> (AllCategories[k] in categories <==> buckets[AllCategories[k]] != [])
    {
      var key := AllCategories[j];
      if |categories[key]| == 0 {
        categories := categories - {key};
      }
    }
    forall c ensures c in categories <==> buckets[c] != [] {
      var k := CategoryIndex(c);
    }
  }

  lemma EmptyBuckets(stories: seq<Story>, buckets: map<Category, seq<Story>>)
    requires buckets == map[
      AiMl := [], WebDevelopment := [], Mobile := [], CloudInfrastructure := [],
      StartupsBusiness := [], Security := [], Hardware := [], GeneralTech := []]
    ensures Complete(buckets)
    ensures forall c :: buckets[c] == Bucket(stories[..0], c)
  {
    assert stories[..0] == [];
    forall c ensures c in buckets {
      var k := CategoryIndex(c);
    }
  }

  /** Pushing story `i` onto its bucket turns the buckets of `stories[..i]` into those of `stories[..i + 1]`. */
  lemma PushStoryExtends(stories: seq<Story>, i: int, before: map<Category, seq<Story>>, after: map<Category, seq<Story>>)
    requires 0 <= i < |stories|
    requires Complete(before) && Complete(after)
    requires forall c :: before[c] == Bucket(stories[..i], c)
    requires after[CategoryOf(stories[i].title)] == before[CategoryOf(stories[i].title)] + [stories[i]]
    requires forall c :: c != CategoryOf(stories[i].title) ==> after[c] == before[c]
    ensures forall c :: after[c] == Bucket(stories[..i + 1], c)
  {
    assert stories[..i + 1] == stories[..i] + [stories[i]];
    forall c ensures after[c] == Bucket(stories[..i + 1], c) {
      BucketSnoc(stories[..i], stories[i], c);
    }
  }

  /**
   * `categorizeTechStories`: each story is pushed onto the bucket of the
   * first rule its lower-cased title matches (General Tech when none does),
   * then every empty bucket is deleted.
   */
  method CategorizeTechStories(stories: seq<Story>) returns (categories: map<Category, seq<Story>>)
    ensures forall c :: c in categories <==> Bucket(stories, c) != []
    ensures forall c :: c in categories ==> categories[c] == Bucket(stories, c)
  {
    var buckets: map<Category, seq<Story>> := map[
      AiMl := [], WebDevelopment := [], Mobile := [], CloudInfrastructure := [],
      StartupsBusiness := [], Security := [], Hardware := [], GeneralTech := []];
    EmptyBuckets(stories, buckets);
    for i := 0 to |stories|
      invariant Complete(buckets)
      invariant forall c :: buckets[c] == Bucket(stories[..i], c)
    {
      ghost var before := buckets;
      buckets := PushStory(buckets, stories[i]);
      PushStoryExtends(stories, i, before, buckets);
    }
    assert stories[..|stories|] == stories;
    categories := DropEmpty(buckets);
  }

  /** The total size of the buckets of `cs`. */
  function SumSizes(stories: seq<Story>, cs: seq<Category>): nat {
    if cs == [] then 0 else |Bucket(stories, cs[0])| + SumSizes(stories, cs[1..])
  }

  function Occurrences(cs: seq<Category>, c: Category): nat {
    if cs == [] then 0 else (if cs[0] == c then 1 else 0) + Occurrences(cs[1..], c)
  }

  lemma {:induction false} SumSizesEmpty(cs: seq<Category>)
    ensures SumSizes([], cs) == 0
  {
    if cs != [] {
      SumSizesEmpty(cs[1..]);
    }
  }

  lemma {:induction false} SumSizesCons(x: Story, rest: seq<Story>, cs: seq<Category>)
    ensures SumSizes([x] + rest, cs) == Occurrences(cs, CategoryOf(x.title)) + SumSizes(rest, cs)
  {
    if cs != [] {
      SumSizesCons(x, rest, cs[1..]);
      FilterAppend([x], rest, InCategory(cs[0]));
      FilterSingle(x, InCategory(cs[0]));
    }
  }

  lemma EveryCategoryListed()
    ensures forall c :: c in AllCategories
  {
    forall c ensures c in AllCategories {
      EveryCategoryOnce(c);
    }
  }

  lemma EveryCategoryOnce(c: Category)
    ensures Occurrences(AllCategories, c) == 1
  {
  }

  /** Every story lands in exactly one bucket: the bucket sizes add up to the number of stories. */
  lemma {:induction false} BucketsPartition(stories: seq<Story>)
    ensures SumSizes(stories, AllCategories) == |stories|
  {
    if stories == [] {
      SumSizesEmpty(AllCategories);
    } else {
      var x := stories[0];
      assert stories == [x] + stories[1..];
      BucketsPartition(stories[1..]);
      SumSizesCons(x, stories[1..], AllCategories);
      EveryCategoryOnce(CategoryOf(x.title));
    }
  }

  /** A story is in bucket `c` exactly when `c` is its category. */
  lemma InBucketIff(stories: seq<Story>, x: Story, c: Category)
    requires x in stories
    ensures x in Bucket(stories, c) <==> CategoryOf(x.title) == c
  {
  }

  lemma NoInteriorBoundary(s: string)
    requires forall i :: 0 <= i < |s| ==> IsWordChar(s[i])
    ensures forall i :: 0 < i < |s| ==> !BoundaryAt(s, i)
  {
  }

  /**
   * A title made only of word characters has a word boundary at its two ends
   * and nowhere else, so a word rule matches it only when the whole title is
   * one of the rule's words.
   */
  lemma WholeWordTitle(s: string, words: seq<string>)
    requires s != []
    requires forall i :: 0 <= i < |s| ==> IsWordChar(s[i])
    requires forall k :: 0 <= k < |words| ==> words[k] != ""
    ensures MatchesWord(s, words) <==> s in words
  {
    MatchesWordIff(s, words);
    if MatchesWord(s, words) {
      var j, k :| 0 <= j <= |s| && 0 <= k < |words| && WordAt(s, words[k], j);
      var e := j + |words[k]|;
      assert 0 <= j < e <= |s|;
      NoInteriorBoundary(s);
      assert j == 0 && e == |s|;
      assert s == words[k];
    }
    if s in words {
      var k :| 0 <= k < |words| && words[k] == s;
      assert s[0..|s|] == s;
      assert WordAt(s, words[k], 0);
    }
  }

  /**
   * Relevance uses substrings and categorisation uses whole words: "email"
   * contains the keyword `ai`, yet the AI & ML rule does not match it.
   */
  lemma SubstringVersusWord()
    ensures Includes("email", "ai")
    ensures !MatchesWord("email", AiWords)
  {
    assert OccursAt("email", "ai", 2);
    OccurrenceIncludes("email", "ai", 2);
    WholeWordTitle("email", AiWords);
  }
}
