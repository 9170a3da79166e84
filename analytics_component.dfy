/** The analytics dialog (src/app/ui/components/github-analytics/github-analytics.component.ts):
    totals and the oldest and newest timestamps of a processed document, the orientation flag
    and the source-code link.

    Timestamps are ISO 8601 strings; `new Date(a) < new Date(b)` is modelled as JavaScript's
    string order on them, which agrees with the instant order for timestamps written in one
    format. */
module AnalyticsComponent {
  import opened Wrappers
  import opened Text
  import opened FirestoreService

  // ---------------------------------------------------------------------------
  // Totals: `reduce((sum, v) => sum + v.count, 0)`; a missing count makes the sum NaN (`None`)
  // ---------------------------------------------------------------------------

  function TotalCount(s: seq<DailyEntry>): (r: Option<int>)
    ensures r.Some? <==> forall i :: 0 <= i < |s| ==> s[i].count.Some?
    ensures r.Some? ==> r.value == SumCount(s)
  {
    if s == [] then Some(0)
    else match TotalCount(s[..|s| - 1])
      case None => None
      case Some(t) => if s[|s| - 1].count.Some? then Some(t + s[|s| - 1].count.value) else None
  }

  function TotalUniques(s: seq<DailyEntry>): (r: Option<int>)
    ensures r.Some? <==> forall i :: 0 <= i < |s| ==> s[i].uniques.Some?
    ensures r.Some? ==> r.value == SumUniques(s)
  {
    if s == [] then Some(0)
    else match TotalUniques(s[..|s| - 1])
      case None => None
      case Some(t) => if s[|s| - 1].uniques.Some? then Some(t + s[|s| - 1].uniques.value) else None
  }

  function ViewsTotalCount(item: TrafficDoc): Option<int> {
    TotalCount(item.views.entries)
  }

  function ViewsTotalUniques(item: TrafficDoc): Option<int> {
    TotalUniques(item.views.entries)
  }

  function ClonesTotalCount(item: TrafficDoc): Option<int> {
    TotalCount(item.clones.entries)
  }

  function ClonesTotalUniques(item: TrafficDoc): Option<int> {
    TotalUniques(item.clones.entries)
  }

  /** On a document the service produced, the dialog's totals agree with the totals the service
      stored, whenever every entry carries its numbers. */
  lemma {:induction false} TotalsAgreeWithService(doc: TrafficDoc, collection: Collection, repo: string, n: Normalised)
    requires Aggregates(doc, collection, repo, n)
    ensures ViewsTotalCount(doc).Some? ==> ViewsTotalCount(doc).value == doc.views.count
    ensures ViewsTotalUniques(doc).Some? ==> ViewsTotalUniques(doc).value == doc.views.uniques
    ensures ClonesTotalCount(doc).Some? ==> ClonesTotalCount(doc).value == doc.clones.count
    ensures ClonesTotalUniques(doc).Some? ==> ClonesTotalUniques(doc).value == doc.clones.uniques
    ensures ViewsTotalCount(doc).Some? ==> doc.views.count == SumCount(n.views)
    ensures ClonesTotalCount(doc).Some? ==> doc.clones.count == SumCount(n.clones)
  {
    SameEntriesMultiset(doc.views.entries, n.views);
    SameEntriesMultiset(doc.clones.entries, n.clones);
    SumPermutation(doc.views.entries, n.views);
    SumPermutation(doc.clones.entries, n.clones);
  }

  // ---------------------------------------------------------------------------
  // Oldest and newest timestamps
  // ---------------------------------------------------------------------------

  function Stamps(s: seq<DailyEntry>): (r: seq<string>)
    ensures |r| == |s| && forall i :: 0 <= i < |s| ==> r[i] == s[i].timestamp
  {
    if s == [] then [] else [s[0].timestamp] + Stamps(s[1..])
  }

  /** `[...views.map(ts), ...clones.map(ts)]`. */
  function AllTimestamps(item: TrafficDoc): seq<string> {
    Stamps(item.views.entries) + Stamps(item.clones.entries)
  }

  /** `reduce((min, ts) => (ts < min ? ts : min), init)`. */
  function FoldOldest(init: string, s: seq<string>): (r: string)
    ensures r == init || r in s
    decreases |s|
  {
    if s == [] then init
    else FoldOldest(if StrLess(s[0], init) then s[0] else init, s[1..])
  }

  /** `reduce((max, ts) => (ts > max ? ts : max), init)`. */
  function FoldNewest(init: string, s: seq<string>): (r: string)
    ensures r == init || r in s
    decreases |s|
  {
    if s == [] then init
    else FoldNewest(if StrLess(init, s[0]) then s[0] else init, s[1..])
  }

  /** Nothing the fold saw is earlier than its result. */
  lemma {:induction false} FoldOldestIsLeast(init: string, s: seq<string>)
    ensures var r := FoldOldest(init, s);
      !StrLess(init, r) && forall x :: x in s ==> !StrLess(x, r)
    decreases |s|
  {
    if s == [] {
      StrLessIrreflexive(init);
    } else {
      var next := if StrLess(s[0], init) then s[0] else init;
      var r := FoldOldest(next, s[1..]);
      FoldOldestIsLeast(next, s[1..]);
      StrLessIrreflexive(next);
      if StrLess(s[0], init) {
        StrLessAsymmetric(s[0], init);
      }
      NotLessTransitive(r, next, s[0]);
      NotLessTransitive(r, next, init);
      assert forall x :: x in s ==> x == s[0] || x in s[1..];
    }
  }

  /** Nothing the fold saw is later than its result. */
  lemma {:induction false} FoldNewestIsGreatest(init: string, s: seq<string>)
    ensures var r := FoldNewest(init, s);
      !StrLess(r, init) && forall x :: x in s ==> !StrLess(r, x)
    decreases |s|
  {
    if s == [] {
      StrLessIrreflexive(init);
    } else {
      var next := if StrLess(init, s[0]) then s[0] else init;
      var r := FoldNewest(next, s[1..]);
      FoldNewestIsGreatest(next, s[1..]);
      StrLessIrreflexive(next);
      if StrLess(init, s[0]) {
        StrLessAsymmetric(init, s[0]);
      }
      NotLessTransitive(s[0], next, r);
      NotLessTransitive(init, next, r);
      assert forall x :: x in s ==> x == s[0] || x in s[1..];
    }
  }

  /** `getOldestItem`: `None` (null) exactly when there is no timestamp; otherwise one of the
      timestamps, and none is earlier. */
  function OldestItem(item: TrafficDoc): (r: Option<string>)
    ensures r.None? <==> item.views.entries == [] && item.clones.entries == []
    ensures r.Some? ==> r.value in AllTimestamps(item)
    ensures r.Some? ==> forall x :: x in AllTimestamps(item) ==> !StrLess(x, r.value)
  {
    var all := AllTimestamps(item);
    if |all| == 0 then None
    else
      FoldOldestIsLeast(all[0], all);
      Some(FoldOldest(all[0], all))
  }

  /** `getMostRecentItem`: `None` exactly when there is no timestamp; otherwise one of the
      timestamps, and none is later. */
  function MostRecentItem(item: TrafficDoc): (r: Option<string>)
    ensures r.None? <==> item.views.entries == [] && item.clones.entries == []
    ensures r.Some? ==> r.value in AllTimestamps(item)
    ensures r.Some? ==> forall x :: x in AllTimestamps(item) ==> !StrLess(r.value, x)
  {
    var all := AllTimestamps(item);
    if |all| == 0 then None
    else
      FoldNewestIsGreatest(all[0], all);
      Some(FoldNewest(all[0], all))
  }

  /** The two properties pin the oldest timestamp down: it is the least element. */
  lemma {:induction false} LeastIsUnique(s: seq<string>, a: string, b: string)
    requires a in s && b in s
    requires forall x :: x in s ==> !StrLess(x, a)
    requires forall x :: x in s ==> !StrLess(x, b)
    ensures a == b
  {
    StrLessTotal(a, b);
  }

  /** On a processed document (views sorted newest first) the oldest view is the last one. */
  lemma {:induction false} OldestOfSortedViews(item: TrafficDoc)
    requires SortedDesc(item.views.entries) && item.views.entries != [] && item.clones.entries == []
    ensures OldestItem(item) == Some(item.views.entries[|item.views.entries| - 1].timestamp)
  {
    var all := AllTimestamps(item);
    var es := item.views.entries;
    var last := es[|es| - 1].timestamp;
    assert all == Stamps(es) + [];
    assert last == all[|all| - 1];
    forall x | x in all ensures !StrLess(x, last) {
      var i :| 0 <= i < |all| && all[i] == x;
      if i < |es| - 1 {
        assert !StrLess(es[i].timestamp, es[|es| - 1].timestamp);
        StrLessTotal(x, last);
        if StrLess(x, last) {
          StrLessAsymmetric(x, last);
        }
      } else {
        StrLessIrreflexive(x);
      }
    }
    LeastIsUnique(all, OldestItem(item).value, last);
  }

  // ---------------------------------------------------------------------------
  // The component
  // ---------------------------------------------------------------------------

  /** `getSourceCodeUrl`. */
  function SourceCodeUrl(repo: string): (r: string)
    ensures StartsWith(r, "https://github.com/zoechbauer/") && r[|"https://github.com/zoechbauer/"|..] == repo
  {
    "https://github.com/zoechbauer/" + repo
  }

  /** Different repositories get different links. */
  lemma {:induction false} SourceCodeUrlInjective(a: string, b: string)
    requires SourceCodeUrl(a) == SourceCodeUrl(b)
    ensures a == b
  {
    assert SourceCodeUrl(a)[|"https://github.com/zoechbauer/"|..] == a;
  }

  class GithubAnalyticsComponent {
    var analyticsData: seq<TrafficDoc>
    var isMobilePortrait: bool

    constructor()
      ensures analyticsData == [] && !isMobilePortrait
    {
      analyticsData := [];
      isMobilePortrait := false;
    }

    /** `checkOrientation` with the window's inner size. */
    method CheckOrientation(width: int, height: int)
      modifies this
      ensures isMobilePortrait <==> width <= 600 && height > width
      ensures analyticsData == old(analyticsData)
    {
      isMobilePortrait := width <= 600 && height > width;
    }

    /** `showAnalyticsData`: the history of every listed repository; a rejected request leaves
        the shown data as it was. */
    method ShowAnalyticsData(service: FirebaseFirestoreService, store: Store, repos: seq<string>)
      returns (reply: Result<seq<TrafficDoc>, string>)
      modifies this, service
      ensures reply.Success? <==> FirstFailing(store, GithubAnalyticsTrafficHistory, repos).None?
      ensures reply.Success? ==> analyticsData == reply.value && |analyticsData| == |repos|
      ensures reply.Success? ==> forall i :: 0 <= i < |repos| ==>
        Summarises(analyticsData[i], store, GithubAnalyticsTrafficHistory, repos[i])
      ensures reply.Failure? ==> analyticsData == old(analyticsData)
      ensures isMobilePortrait == old(isMobilePortrait)
    {
      reply := service.GetAnalyticsData(store, GithubAnalyticsTrafficHistory, AllRepos, false, repos);
      if reply.Success? {
        analyticsData := reply.value;
      }
    }
  }
}
