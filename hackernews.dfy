/**
 * The story provider adapter (src/lib/services/hackernews.js). The HTTP
 * responses of the HackerNews API are inputs: the top-stories list is a
 * `Result` (a failed fetch or a body that is not an array throws), and
 * each item fetch is an `ItemResponse`.
 */
module HackerNews {
  import opened Wrappers
  import opened Seqs

  /**
   * A normalised story. A missing `title` is represented by the empty
   * string: every use of a title in the source treats both as falsy. The
   * author (`by`) is copied as it is, absent or not.
   */
  datatype Story = Story(
    id: int,
    title: string,
    url: string,
    score: int,
    descendants: int,
    time: int,
    author: Option<string>,
    text: string)

  /** An item as the API returns it; `None` is a field the JSON does not carry. */
  datatype Item = Item(
    id: int,
    itemType: string,
    title: Option<string>,
    url: Option<string>,
    score: Option<int>,
    descendants: Option<int>,
    time: int,
    author: Option<string>,
    text: Option<string>)

  /** What one `fetch` of `item/<id>.json` yields: a network or parse error, a JSON `null`, or an item. */
  datatype ItemResponse = FetchFailed | NullItem | Found(item: Item)

  /** The number of top story ids that `getTrendingStories` asks for. */
  const TopIdsFetched: nat := 50

  /** `storyIds.slice(0, limit)` over the fetched id list; a failed fetch propagates. */
  function GetTopStoryIds(response: Result<seq<int>>, limit: int): (r: Result<seq<int>>)
    ensures r.Success? <==> response.Success?
    ensures r.Success? ==> |r.value| <= |response.value| && r.value == response.value[..|r.value|]
    ensures r.Success? && limit >= 0 ==>
      |r.value| == if limit < |response.value| then limit else |response.value|
  {
    match response
    case Success(ids) => Success(SliceTo(ids, limit))
    case Failure(e) => Failure(e)
  }

  /** A JavaScript value is truthy: a present, non-empty string. */
  predicate Truthy(s: Option<string>) {
    s.Some? && s.value != ""
  }

  /** Only items of type `story` that carry a non-empty url are admitted. */
  predicate Admitted(response: ItemResponse) {
    response.Found? && response.item.itemType == "story" && Truthy(response.item.url)
  }

  /** `getStory`: admission, then normalisation with `|| 0` and `|| ''` defaults. */
  function GetStory(response: ItemResponse): (r: Option<Story>)
    ensures r.Some? <==> Admitted(response)
    ensures r.Some? ==>
      var it := response.item;
      && r.value.id == it.id && r.value.url == it.url.value && r.value.time == it.time
      && r.value.title == it.title.GetOr("")
      && r.value.score == it.score.GetOr(0)
      && r.value.descendants == it.descendants.GetOr(0)
      && r.value.author == it.author
      && r.value.text == it.text.GetOr("")
  {
    if Admitted(response) then
      var it := response.item;
      Some(Story(it.id, it.title.GetOr(""), it.url.value, it.score.GetOr(0),
                 it.descendants.GetOr(0), it.time, it.author, it.text.GetOr("")))
    else
      None
  }

  /** `getStories`: fetch every id, then drop the `null` results, keeping id order. */
  function GetStories(ids: seq<int>, fetch: int -> ItemResponse): (r: seq<Story>)
    ensures |r| <= |ids|
    ensures forall x :: x in r ==> exists k :: 0 <= k < |ids| && GetStory(fetch(ids[k])) == Some(x)
  {
    if ids == [] then []
    else
      var rest := GetStories(ids[1..], fetch);
      assert forall x :: x in rest ==> exists k :: 0 <= k < |ids| && GetStory(fetch(ids[k])) == Some(x) by {
        forall x | x in rest ensures exists k :: 0 <= k < |ids| && GetStory(fetch(ids[k])) == Some(x) {
          var k :| 0 <= k < |ids[1..]| && GetStory(fetch(ids[1..][k])) == Some(x);
          assert ids[1..][k] == ids[k + 1];
        }
      }
      match GetStory(fetch(ids[0]))
      case Some(s) => [s] + rest
      case None => rest
  }

  /** Fetching a concatenation of id lists yields the concatenation of the results. */
  lemma {:induction false} GetStoriesAppend(a: seq<int>, b: seq<int>, fetch: int -> ItemResponse)
    ensures GetStories(a + b, fetch) == GetStories(a, fetch) + GetStories(b, fetch)
  {
    if a == [] {
      assert a + b == b;
    } else {
      assert (a + b)[1..] == a[1..] + b;
      GetStoriesAppend(a[1..], b, fetch);
    }
  }

  /** A single id contributes its story exactly when the item is admitted. */
  lemma GetStoriesSingle(id: int, fetch: int -> ItemResponse)
    ensures GetStories([id], fetch) == if Admitted(fetch(id)) then [GetStory(fetch(id)).value] else []
  {
    assert [id][1..] == [];
  }

  predicate SortedByScore(s: seq<Story>) {
    forall i, j :: 0 <= i < j < |s| ==> s[i].score >= s[j].score
  }

  /** Inserts `x` before the first element whose score is not greater than its own. */
  function InsertByScore(x: Story, t: seq<Story>): (r: seq<Story>)
    ensures |r| == |t| + 1
    ensures multiset(r) == multiset(t) + multiset{x}
  {
    if t == [] || x.score >= t[0].score then [x] + t
    else
      assert t == [t[0]] + t[1..];
      [t[0]] + InsertByScore(x, t[1..])
  }

  lemma {:induction false} InsertByScoreSorted(x: Story, t: seq<Story>)
    requires SortedByScore(t)
    ensures SortedByScore(InsertByScore(x, t))
  {
    if t != [] && x.score < t[0].score {
      var rest := InsertByScore(x, t[1..]);
      InsertByScoreSorted(x, t[1..]);
      forall y | y in rest ensures y.score <= t[0].score {
        assert y in multiset(rest);
      }
    }
  }

  /**
   * `stories.sort((a, b) => b.score - a.score)`: Array.prototype.sort is
   * stable, so this is an insertion sort that keeps equal scores in input order.
   */
  function SortByScore(s: seq<Story>): (r: seq<Story>)
    ensures |r| == |s|
    ensures multiset(r) == multiset(s)
    ensures SortedByScore(r)
  {
    if s == [] then []
    else
      assert s == [s[0]] + s[1..];
      InsertByScoreSorted(s[0], SortByScore(s[1..]));
      InsertByScore(s[0], SortByScore(s[1..]))
  }

  function HasScore(v: int): Story -> bool {
    (x: Story) => x.score == v
  }

  function OfScore(x: Story, v: int): seq<Story> {
    if x.score == v then [x] else []
  }

  lemma InsertAtFrontStable(x: Story, t: seq<Story>, v: int)
    requires t == [] || x.score >= t[0].score
    ensures Filter(InsertByScore(x, t), HasScore(v)) == OfScore(x, v) + Filter(t, HasScore(v))
  {
    assert InsertByScore(x, t) == [x] + t;
    FilterSingle(x, HasScore(v));
    FilterAppend([x], t, HasScore(v));
  }

  lemma InsertPastHeadFilter(x: Story, t: seq<Story>, v: int)
    requires t != [] && x.score < t[0].score
    ensures Filter(InsertByScore(x, t), HasScore(v))
         == Filter([t[0]], HasScore(v)) + Filter(InsertByScore(x, t[1..]), HasScore(v))
  {
    var rest := InsertByScore(x, t[1..]);
    assert InsertByScore(x, t) == [t[0]] + rest;
    FilterAppend([t[0]], rest, HasScore(v));
  }

  lemma InsertPastHeadSame(x: Story, t: seq<Story>, v: int)
    requires t != [] && x.score < t[0].score && x.score == v
    requires Filter(InsertByScore(x, t[1..]), HasScore(v)) == [x] + Filter(t[1..], HasScore(v))
    ensures Filter(InsertByScore(x, t), HasScore(v)) == [x] + Filter(t, HasScore(v))
  {
    var p := HasScore(v);
    var rest := Filter(t[1..], p);
    assert Filter(InsertByScore(x, t), p) == Filter([t[0]], p) + ([x] + rest) by {
      InsertPastHeadFilter(x, t, v);
    }
    assert Filter(t, p) == Filter([t[0]], p) + rest by {
      FilterCons(t, p);
    }
    assert Filter([t[0]], p) == [] by {
      FilterSingle(t[0], p);
    }
    assert Filter([t[0]], p) + ([x] + rest) == [x] + rest;
    assert Filter([t[0]], p) + rest == rest;
  }

  lemma InsertPastHeadOther(x: Story, t: seq<Story>, v: int)
    requires t != [] && x.score < t[0].score && x.score != v
    requires Filter(InsertByScore(x, t[1..]), HasScore(v)) == Filter(t[1..], HasScore(v))
    ensures Filter(InsertByScore(x, t), HasScore(v)) == Filter(t, HasScore(v))
  {
    InsertPastHeadFilter(x, t, v);
    FilterCons(t, HasScore(v));
  }

  lemma {:induction false} InsertByScoreStable(x: Story, t: seq<Story>, v: int)
    ensures Filter(InsertByScore(x, t), HasScore(v)) == OfScore(x, v) + Filter(t, HasScore(v))
  {
    if t == [] || x.score >= t[0].score {
      InsertAtFrontStable(x, t, v);
    } else {
      InsertByScoreStable(x, t[1..], v);
      if x.score == v {
        InsertPastHeadSame(x, t, v);
      } else {
        assert OfScore(x, v) == [];
        InsertPastHeadOther(x, t, v);
      }
    }
  }

  /** Stability: the stories of any one score come out in the order they went in. */
  lemma {:induction false} SortByScoreStable(s: seq<Story>, v: int)
    ensures Filter(SortByScore(s), HasScore(v)) == Filter(s, HasScore(v))
  {
    if s != [] {
      SortByScoreStable(s[1..], v);
      InsertByScoreStable(s[0], SortByScore(s[1..]), v);
    }
  }

  /** Sorting a list that is already sorted by score changes nothing. */
  lemma {:induction false} SortSortedIsIdentity(s: seq<Story>)
    requires SortedByScore(s)
    ensures SortByScore(s) == s
  {
    if s != [] {
      SortSortedIsIdentity(s[1..]);
      assert SortByScore(s[1..]) == s[1..];
      assert s == [s[0]] + s[1..];
    }
  }

  /** Filtering keeps a sorted list sorted. */
  lemma {:induction false} FilterSorted(s: seq<Story>, p: Story -> bool)
    requires SortedByScore(s)
    ensures SortedByScore(Filter(s, p))
  {
    if s != [] {
      FilterSorted(s[1..], p);
      var rest := Filter(s[1..], p);
      assert forall y :: y in rest ==> y in s[1..];
      assert forall y :: y in s[1..] ==> y.score <= s[0].score by {
        forall y | y in s[1..] ensures y.score <= s[0].score {
          var j :| 0 <= j < |s[1..]| && s[1..][j] == y;
          assert s[j + 1] == y;
        }
      }
    }
  }

  /** Cutting a sorted list anywhere leaves nothing after the cut that outscores anything before it. */
  lemma SortedCut(s: seq<Story>, k: int)
    requires SortedByScore(s) && 0 <= k <= |s|
    ensures forall x, y :: x in s[..k] && y in s[k..] ==> y.score <= x.score
  {
    forall x: Story, y: Story | x in s[..k] && y in s[k..] ensures y.score <= x.score {
      var i :| 0 <= i < k && s[..k][i] == x;
      var j :| 0 <= j < |s| - k && s[k..][j] == y;
      assert s[i] == x && s[k + j] == y;
    }
  }

  /** `.sort((a, b) => b.score - a.score).slice(0, limit)`: the top stories by score. */
  function TopByScore(s: seq<Story>, limit: int): seq<Story> {
    SliceTo(SortByScore(s), limit)
  }

  /** The top stories are sorted, of length `min(limit, |s|)`, and drawn from `s`. */
  lemma TopByScoreShape(s: seq<Story>, limit: int)
    ensures var top := TopByScore(s, limit);
      && SortedByScore(top)
      && |top| == SliceEnd(|s|, limit)
      && (0 <= limit ==> |top| == if limit < |s| then limit else |s|)
      && multiset(top) <= multiset(s)
  {
    var sorted := SortByScore(s);
    var top := TopByScore(s, limit);
    assert sorted == top + sorted[|top|..];
    assert multiset(sorted) == multiset(top) + multiset(sorted[|top|..]);
  }

  /**
   * Nothing the cut leaves out outscores anything it keeps: the ranked
   * stories are the top ones followed by the rest.
   */
  lemma TopByScoreOutscoresRest(s: seq<Story>, limit: int)
    ensures var ranked := SortByScore(s);
      var top := TopByScore(s, limit);
      && ranked == top + ranked[|top|..]
      && multiset(ranked) == multiset(s)
      && forall x, y :: x in top && y in ranked[|top|..] ==> y.score <= x.score
  {
    var ranked := SortByScore(s);
    var top := TopByScore(s, limit);
    assert ranked == top + ranked[|top|..];
    SortedCut(ranked, |top|);
  }

  /** The recency cutoff in epoch seconds: `Math.floor(Date.now() / 1000) - hoursBack * 3600`. */
  function Cutoff(nowMs: int, hoursBack: int): int {
    nowMs / 1000 - hoursBack * 3600
  }

  function IsRecent(cutoff: int): Story -> bool {
    (x: Story) => x.time >= cutoff
  }

  /** The stories of the first 50 top ids that survive admission and the recency filter. */
  function RecentStories(ids: seq<int>, hoursBack: int, nowMs: int, fetch: int -> ItemResponse): seq<Story> {
    Filter(GetStories(ids, fetch), IsRecent(Cutoff(nowMs, hoursBack)))
  }

  /**
   * `getTrendingStories(limit, hoursBack)`: at most the first 50 top ids,
   * admitted, recent, sorted by non-increasing score and cut to `limit`.
   */
  function GetTrendingStories(limit: int, hoursBack: int, nowMs: int,
                              topIds: Result<seq<int>>, fetch: int -> ItemResponse): (r: Result<seq<Story>>)
    ensures r.Success? <==> topIds.Success?
    ensures r.Success? ==>
      var ids := topIds.value[..SliceEnd(|topIds.value|, TopIdsFetched)];
      && SortedByScore(r.value)
      && |r.value| <= TopIdsFetched
      && (limit >= 0 ==> |r.value| <= limit)
      && multiset(r.value) <= multiset(RecentStories(ids, hoursBack, nowMs, fetch))
      && (forall x :: x in r.value ==>
            x.time >= Cutoff(nowMs, hoursBack) &&
            exists k :: 0 <= k < |ids| && GetStory(fetch(ids[k])) == Some(x))
    ensures r.Success? ==>
      var recent := RecentStories(topIds.value[..SliceEnd(|topIds.value|, TopIdsFetched)], hoursBack, nowMs, fetch);
      var ranked := SortByScore(recent);
      && r.value == TopByScore(recent, limit)
      && |r.value| == SliceEnd(|recent|, limit)
      && ranked == r.value + ranked[|r.value|..]
      && forall x, y :: x in r.value && y in ranked[|r.value|..] ==> y.score <= x.score
  {
    match GetTopStoryIds(topIds, TopIdsFetched)
    case Failure(e) => Failure(e)
    case Success(ids) =>
      var recent := RecentStories(ids, hoursBack, nowMs, fetch);
      var top := TopByScore(recent, limit);
      TopByScoreShape(recent, limit);
      TopByScoreOutscoresRest(recent, limit);
      assert forall x :: x in top ==> x in recent by {
        forall x | x in top ensures x in recent {
          assert x in multiset(top);
        }
      }
      Success(top)
  }
}
