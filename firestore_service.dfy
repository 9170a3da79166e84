/** The web client's reading of the analytics documents
    (src/app/services/firebase-firestore.service.ts): a document of either collection is
    normalised to two flat arrays, each array is sorted by timestamp (newest first) and totalled,
    and the two single-metric documents are merged into one.

    Firestore is a map from (collection, repository) to the stored document; the emulator
    connection and the console output are not modelled. */
module FirestoreService {
  import opened Wrappers
  import opened Text

  // ---------------------------------------------------------------------------
  // Documents
  // ---------------------------------------------------------------------------

  /** `GithubArrayTrafficEntry`; a stored entry may lack its counts. */
  datatype DailyEntry = DailyEntry(timestamp: string, count: Option<int>, uniques: Option<int>)

  datatype Collection = GithubAnalyticsTraffic | GithubAnalyticsTrafficHistory

  datatype TrafficType = Views | Clones

  /** One metric of `GithubAnalyticsTrafficDocument`: its totals and its daily entries. */
  datatype Part = Part(count: int, uniques: int, entries: seq<DailyEntry>)

  /** `GithubAnalyticsTrafficDocument`. */
  datatype TrafficDoc = TrafficDoc(collection: Collection, repo: string, timestamp: string, views: Part, clones: Part)

  /** A stored `views` (resp. `clones`) field: absent, an array (the history layout), or an
      object holding the array under the same name (the snapshot layout). */
  datatype RawField = Missing | Flat(items: seq<DailyEntry>) | Nested(inner: Option<seq<DailyEntry>>)

  datatype RawDoc = RawDoc(views: RawField, clones: RawField, timestamp: Option<string>)

  /** The stored documents, by collection and repository name. */
  type Store = map<(Collection, string), RawDoc>

  const AllRepos := "all"
  const NoDataError := "No analytics data found."
  const UndefinedFieldError := "TypeError: Cannot read properties of undefined"
  const NotAnArrayError := "TypeError: sort is not a function"

  /** The flat input of `processData`. */
  datatype Normalised = Normalised(views: seq<DailyEntry>, clones: seq<DailyEntry>, timestamp: string)

  /** One field of the snapshot layout: `data[f][f] || []`; an absent field throws. */
  function SnapshotField(f: RawField): Result<seq<DailyEntry>, string> {
    match f
    case Missing => Failure(UndefinedFieldError)
    case Flat(_) => Success([])
    case Nested(inner) => Success(inner.GetOr([]))
  }

  /** One field of the history layout as `processStatistics` sees it: `data?.f ?? []`; a value
      that is not an array makes `sort` throw. */
  function HistoryField(f: RawField): Result<seq<DailyEntry>, string> {
    match f
    case Missing => Success([])
    case Flat(xs) => Success(xs)
    case Nested(_) => Failure(NotAnArrayError)
  }

  /** The normalisation branch of `fetchAnalyticsForRepo` followed by the defaults of
      `processData`; the views field is evaluated first. */
  function Normalise(collection: Collection, raw: RawDoc): (r: Result<Normalised, string>)
    ensures collection == GithubAnalyticsTraffic ==>
      (r.Success? <==> raw.views != Missing && raw.clones != Missing)
    ensures collection == GithubAnalyticsTrafficHistory ==>
      (r.Success? <==> !raw.views.Nested? && !raw.clones.Nested?)
    ensures collection == GithubAnalyticsTraffic && r.Success? ==>
      r.value.views == (if raw.views.Nested? then raw.views.inner.GetOr([]) else [])
    ensures collection == GithubAnalyticsTrafficHistory && r.Success? ==>
      r.value.views == (if raw.views.Flat? then raw.views.items else [])
    ensures collection == GithubAnalyticsTraffic && r.Success? ==>
      r.value.clones == (if raw.clones.Nested? then raw.clones.inner.GetOr([]) else [])
    ensures collection == GithubAnalyticsTrafficHistory && r.Success? ==>
      r.value.clones == (if raw.clones.Flat? then raw.clones.items else [])
    ensures r.Success? ==> r.value.timestamp == raw.timestamp.GetOr("")
    ensures collection == GithubAnalyticsTraffic && r.Failure? ==> r.error == UndefinedFieldError
    ensures collection == GithubAnalyticsTrafficHistory && r.Failure? ==> r.error == NotAnArrayError
  {
    var field := if collection == GithubAnalyticsTraffic then SnapshotField else HistoryField;
    var views :- field(raw.views);
    var clones :- field(raw.clones);
    Success(Normalised(views, clones, raw.timestamp.GetOr("")))
  }

  // ---------------------------------------------------------------------------
  // Totals
  // ---------------------------------------------------------------------------

  /** `entry.count || 0`. */
  function CountOf(e: DailyEntry): int {
    e.count.GetOr(0)
  }

  /** `entry.uniques || 0`. */
  function UniquesOf(e: DailyEntry): int {
    e.uniques.GetOr(0)
  }

  /** The running total of `processStatistics`, missing counts taken as 0. */
  function SumCount(s: seq<DailyEntry>): int {
    if s == [] then 0 else SumCount(s[..|s| - 1]) + CountOf(s[|s| - 1])
  }

  function SumUniques(s: seq<DailyEntry>): int {
    if s == [] then 0 else SumUniques(s[..|s| - 1]) + UniquesOf(s[|s| - 1])
  }

  lemma {:induction false} SumAppend(s: seq<DailyEntry>, t: seq<DailyEntry>)
    ensures SumCount(s + t) == SumCount(s) + SumCount(t)
    ensures SumUniques(s + t) == SumUniques(s) + SumUniques(t)
    decreases |t|
  {
    if t != [] {
      SumAppend(s, t[..|t| - 1]);
      assert (s + t)[..|s + t| - 1] == s + t[..|t| - 1];
      assert (s + t)[|s + t| - 1] == t[|t| - 1];
    } else {
      assert s + t == s;
    }
  }

  /** Removing one entry removes its contribution to the totals. */
  lemma {:induction false} SumRemove(t: seq<DailyEntry>, k: nat)
    requires k < |t|
    ensures SumCount(t) == SumCount(t[..k] + t[k + 1..]) + CountOf(t[k])
    ensures SumUniques(t) == SumUniques(t[..k] + t[k + 1..]) + UniquesOf(t[k])
  {
    var before, x, after := t[..k], t[k], t[k + 1..];
    assert t == before + [x] + after;
    SumAppend(before + [x], after);
    SumAppend(before, [x]);
    SumAppend(before, after);
    SumSingle(x);
  }

  lemma {:induction false} SumSingle(x: DailyEntry)
    ensures SumCount([x]) == CountOf(x) && SumUniques([x]) == UniquesOf(x)
  {
    assert [x][..0] == [];
  }

  /** Removing the entry at `k` removes one copy of it. */
  lemma {:induction false} MultisetRemove(t: seq<DailyEntry>, k: nat)
    requires k < |t|
    ensures multiset(t) == multiset(t[..k] + t[k + 1..]) + multiset{t[k]}
  {
    assert t == t[..k] + [t[k]] + t[k + 1..];
  }

  lemma {:induction false} MultisetCancel(a: multiset<DailyEntry>, b: multiset<DailyEntry>, x: DailyEntry)
    requires a + multiset{x} == b + multiset{x}
    ensures a == b
  {
    assert a == (a + multiset{x}) - multiset{x};
    assert b == (b + multiset{x}) - multiset{x};
  }

  /** The totals do not depend on the order of the entries. */
  lemma {:induction false} SumPermutation(s: seq<DailyEntry>, t: seq<DailyEntry>)
    requires multiset(s) == multiset(t)
    ensures SumCount(s) == SumCount(t) && SumUniques(s) == SumUniques(t)
    decreases |s|
  {
    if s == [] {
      assert |t| == |multiset(t)| == 0;
    } else {
      var n := |s| - 1;
      var x := s[n];
      MultisetRemove(s, n);
      assert s[..n] + s[n + 1..] == s[..n];
      assert x in multiset(t);
      var k :| 0 <= k < |t| && t[k] == x;
      MultisetRemove(t, k);
      var rest := t[..k] + t[k + 1..];
      MultisetCancel(multiset(s[..n]), multiset(rest), x);
      SumPermutation(s[..n], rest);
      SumRemove(t, k);
    }
  }

  /** A part whose totals are the sums of its entries. */
  predicate Consistent(p: Part) {
    p.count == SumCount(p.entries) && p.uniques == SumUniques(p.entries)
  }

  // ---------------------------------------------------------------------------
  // Order
  // ---------------------------------------------------------------------------

  /** Non-increasing timestamps, as the comparator `a.timestamp < b.timestamp ? 1 : -1` asks. */
  predicate SortedDesc(s: seq<DailyEntry>) {
    forall i, j :: 0 <= i < j < |s| ==> !StrLess(s[i].timestamp, s[j].timestamp)
  }

  /** How many times `e` occurs in `s`. */
  function Occurrences(s: seq<DailyEntry>, e: DailyEntry): nat {
    if s == [] then 0 else Occurrences(s[..|s| - 1], e) + if s[|s| - 1] == e then 1 else 0
  }

  lemma {:induction false} OccurrencesMultiset(s: seq<DailyEntry>, e: DailyEntry)
    ensures Occurrences(s, e) == multiset(s)[e]
    decreases |s|
  {
    if s != [] {
      OccurrencesMultiset(s[..|s| - 1], e);
      assert s == s[..|s| - 1] + [s[|s| - 1]];
    }
  }

  /** `r` and `s` hold the same entries, each as often. */
  ghost predicate SameEntries(r: seq<DailyEntry>, s: seq<DailyEntry>) {
    forall e :: Occurrences(r, e) == Occurrences(s, e)
  }

  lemma {:induction false} SameEntriesMultiset(r: seq<DailyEntry>, s: seq<DailyEntry>)
    ensures SameEntries(r, s) <==> multiset(r) == multiset(s)
  {
    forall e ensures Occurrences(r, e) == multiset(r)[e] && Occurrences(s, e) == multiset(s)[e] {
      OccurrencesMultiset(r, e);
      OccurrencesMultiset(s, e);
    }
  }

  /** `r` holds the entries of `s`, newest first. */
  ghost predicate SortedPermutation(r: seq<DailyEntry>, s: seq<DailyEntry>) {
    SortedDesc(r) && SameEntries(r, s)
  }

  /** `data.sort((a, b) => (a.timestamp < b.timestamp ? 1 : -1))`, by insertion. */
  method SortDescending(a: array<DailyEntry>)
    modifies a
    ensures SortedDesc(a[..])
    ensures multiset(a[..]) == multiset(old(a[..]))
  {
    var i := 0;
    while i < a.Length
      invariant 0 <= i <= a.Length
      invariant SortedDesc(a[..i])
      invariant multiset(a[..]) == multiset(old(a[..]))
    {
      Insert(a, i);
      i := i + 1;
    }
    assert a[..a.Length] == a[..];
  }

  /** Moves `a[i]` left past every older entry, so that `a[..i + 1]` is sorted. */
  method Insert(a: array<DailyEntry>, i: nat)
    requires i < a.Length && SortedDesc(a[..i])
    modifies a
    ensures SortedDesc(a[..i + 1])
    ensures multiset(a[..]) == multiset(old(a[..]))
  {
    var j := i;
    InsertStart(a[..], i);
    while j > 0 && StrLess(a[j - 1].timestamp, a[j].timestamp)
      invariant 0 <= j <= i
      invariant multiset(a[..]) == multiset(old(a[..]))
      invariant Inserting(a[..], i, j)
    {
      ghost var before := a[..];
      a[j - 1], a[j] := a[j], a[j - 1];
      assert a[..] == Swap(before, j);
      SwapStep(before, i, j);
      j := j - 1;
    }
    InsertDone(a[..], i, j);
  }

  /** The state of an insertion: `s[..i + 1]` is sorted except for the entry at `j`, which is
      newer than everything after it. */
  predicate Inserting(s: seq<DailyEntry>, i: nat, j: nat) {
    && j <= i < |s|
    && (forall k, l :: 0 <= k < l <= i && k != j && l != j ==> !StrLess(s[k].timestamp, s[l].timestamp))
    && (forall l :: j < l <= i ==> StrLess(s[l].timestamp, s[j].timestamp))
  }

  function Swap(s: seq<DailyEntry>, j: nat): seq<DailyEntry>
    requires 0 < j < |s|
  {
    s[j - 1 := s[j]][j := s[j - 1]]
  }

  lemma {:induction false} InsertStart(s: seq<DailyEntry>, i: nat)
    requires i < |s| && SortedDesc(s[..i])
    ensures Inserting(s, i, i)
  {
    forall k, l | 0 <= k < l < i ensures !StrLess(s[k].timestamp, s[l].timestamp) {
      assert s[k] == s[..i][k] && s[l] == s[..i][l];
    }
  }

  lemma {:induction false} SwapStep(s: seq<DailyEntry>, i: nat, j: nat)
    requires Inserting(s, i, j) && 0 < j && StrLess(s[j - 1].timestamp, s[j].timestamp)
    ensures Inserting(Swap(s, j), i, j - 1)
    ensures multiset(Swap(s, j)) == multiset(s)
  {
    var r := Swap(s, j);
    assert r[j - 1] == s[j] && r[j] == s[j - 1];
    assert forall k :: 0 <= k < |s| && k != j - 1 && k != j ==> r[k] == s[k];
  }

  lemma {:induction false} InsertDone(s: seq<DailyEntry>, i: nat, j: nat)
    requires Inserting(s, i, j) && (j == 0 || !StrLess(s[j - 1].timestamp, s[j].timestamp))
    ensures SortedDesc(s[..i + 1])
  {
    forall k, l | 0 <= k < l <= i
      ensures !StrLess(s[k].timestamp, s[l].timestamp)
    {
      if l == j {
        if k < j - 1 {
          NotLessTransitive(s[j].timestamp, s[j - 1].timestamp, s[k].timestamp);
        }
      } else if k == j {
        StrLessAsymmetric(s[l].timestamp, s[j].timestamp);
      }
    }
  }

  // ---------------------------------------------------------------------------
  // The service
  // ---------------------------------------------------------------------------

  /** The document `processStatistics` builds from the sorted entries of one metric. */
  function StatisticsDoc(collection: Collection, repo: string, t: TrafficType, timestamp: string,
                         sorted: seq<DailyEntry>): TrafficDoc
  {
    var full := Part(SumCount(sorted), SumUniques(sorted), sorted);
    var empty := Part(0, 0, []);
    TrafficDoc(collection, repo, timestamp, if t == Views then full else empty, if t == Clones then full else empty)
  }

  /** `doc` is the processed form of the given flat entries: each metric holds its entries
      newest first and totals that are the sums over them. */
  ghost predicate Aggregates(doc: TrafficDoc, collection: Collection, repo: string, n: Normalised) {
    && doc.collection == collection && doc.repo == repo && doc.timestamp == n.timestamp
    && SortedPermutation(doc.views.entries, n.views) && Consistent(doc.views)
    && SortedPermutation(doc.clones.entries, n.clones) && Consistent(doc.clones)
  }

  /** The reason `fetchAnalyticsForRepo` throws for a repository, if any. */
  function LoadError(store: Store, collection: Collection, repo: string): Option<string> {
    if (collection, repo) !in store then Some(NoDataError)
    else match Normalise(collection, store[(collection, repo)])
      case Failure(e) => Some(e)
      case Success(_) => None
  }

  /** The result `fetchAnalyticsForRepo` promises for a loadable repository. */
  ghost predicate Summarises(doc: TrafficDoc, store: Store, collection: Collection, repo: string) {
    (collection, repo) in store && Normalise(collection, store[(collection, repo)]).Success?
    && Aggregates(doc, collection, repo, Normalise(collection, store[(collection, repo)]).value)
  }

  /** The index of the first repository that cannot be loaded. */
  function FirstFailing(store: Store, collection: Collection, repos: seq<string>): (r: Option<nat>)
    ensures r.None? <==> forall i :: 0 <= i < |repos| ==> LoadError(store, collection, repos[i]).None?
    ensures r.Some? ==> r.value < |repos| && LoadError(store, collection, repos[r.value]).Some?
    ensures r.Some? ==> forall i :: 0 <= i < r.value ==> LoadError(store, collection, repos[i]).None?
  {
    if repos == [] then None
    else if LoadError(store, collection, repos[0]).Some? then Some(0)
    else
      match FirstFailing(store, collection, repos[1..])
      case None => None
      case Some(i) => Some(i + 1)
  }

  /** Merging the two single-metric documents keeps each metric's totals the sums of its entries. */
  lemma {:induction false} MergePreservesConsistency(p1: Part, p2: Part)
    ensures Consistent(p1) && Consistent(p2) ==>
      Consistent(Part(p1.count + p2.count, p1.uniques + p2.uniques, p1.entries + p2.entries))
  {
    SumAppend(p1.entries, p2.entries);
  }

  /** `FirebaseFirestoreService`: the collection and repository of the current request are
      fields that every request rewrites. */
  class FirebaseFirestoreService {
    var repo: string
    var collection: Collection
    var useFirebaseEmulator: bool

    constructor()
      ensures repo == "z-control-landing-page" && collection == GithubAnalyticsTrafficHistory
      ensures !useFirebaseEmulator
    {
      repo := "z-control-landing-page";
      collection := GithubAnalyticsTrafficHistory;
      useFirebaseEmulator := false;
    }

    /** `mergeDocuments`: counts added fieldwise, arrays concatenated with `doc1` first, the
        timestamp of `doc2`. */
    function MergeDocuments(doc1: TrafficDoc, doc2: TrafficDoc): (r: TrafficDoc)
      reads this
      ensures r.collection == collection && r.repo == repo && r.timestamp == doc2.timestamp
      ensures r.views.count == doc1.views.count + doc2.views.count
      ensures r.views.uniques == doc1.views.uniques + doc2.views.uniques
      ensures r.clones.count == doc1.clones.count + doc2.clones.count
      ensures r.clones.uniques == doc1.clones.uniques + doc2.clones.uniques
      ensures r.views.entries == doc1.views.entries + doc2.views.entries
      ensures r.clones.entries == doc1.clones.entries + doc2.clones.entries
      ensures Consistent(doc1.views) && Consistent(doc2.views) ==> Consistent(r.views)
      ensures Consistent(doc1.clones) && Consistent(doc2.clones) ==> Consistent(r.clones)
      ensures multiset(r.views.entries) == multiset(doc1.views.entries) + multiset(doc2.views.entries)
      ensures multiset(r.clones.entries) == multiset(doc1.clones.entries) + multiset(doc2.clones.entries)
      ensures doc2.views == Part(0, 0, []) ==> r.views == doc1.views
      ensures doc1.clones == Part(0, 0, []) ==> r.clones == doc2.clones
    {
      var views := Part(doc1.views.count + doc2.views.count, doc1.views.uniques + doc2.views.uniques,
                        doc1.views.entries + doc2.views.entries);
      var clones := Part(doc1.clones.count + doc2.clones.count, doc1.clones.uniques + doc2.clones.uniques,
                         doc1.clones.entries + doc2.clones.entries);
      MergePreservesConsistency(doc1.views, doc2.views);
      MergePreservesConsistency(doc1.clones, doc2.clones);
      assert doc1.views.entries + [] == doc1.views.entries;
      assert [] + doc2.clones.entries == doc2.clones.entries;
      TrafficDoc(collection, repo, doc2.timestamp, views, clones)
    }

    /** `processStatistics`: sorts `data` in place, newest first, and totals it; the other
        metric of the document is zero and empty. */
    method ProcessStatistics(t: TrafficType, data: array<DailyEntry>, timestamp: string) returns (doc: TrafficDoc)
      modifies data
      ensures SortedPermutation(data[..], old(data[..]))
      ensures doc == StatisticsDoc(collection, repo, t, timestamp, data[..])
    {
      SortDescending(data);
      SameEntriesMultiset(data[..], old(data[..]));
      var totalCount, totalUniques := 0, 0;
      var dailyEntries: seq<DailyEntry> := [];
      var i := 0;
      while i < data.Length
        invariant 0 <= i <= data.Length
        invariant dailyEntries == data[..i]
        invariant totalCount == SumCount(data[..i]) && totalUniques == SumUniques(data[..i])
      {
        assert data[..i + 1][..i] == data[..i];
        totalCount := totalCount + CountOf(data[i]);
        totalUniques := totalUniques + UniquesOf(data[i]);
        dailyEntries := dailyEntries + [data[i]];
        i := i + 1;
      }
      assert data[..data.Length] == data[..];
      var full := Part(totalCount, totalUniques, dailyEntries);
      var empty := Part(0, 0, []);
      doc := TrafficDoc(collection, repo, timestamp, if t == Views then full else empty,
                        if t == Clones then full else empty);
    }

    /** `processData`: the views document and the clones document, merged. */
    method ProcessData(n: Normalised) returns (doc: TrafficDoc)
      ensures Aggregates(doc, collection, repo, n)
    {
      var viewsArr := new DailyEntry[|n.views|](i requires 0 <= i < |n.views| => n.views[i]);
      var clonesArr := new DailyEntry[|n.clones|](i requires 0 <= i < |n.clones| => n.clones[i]);
      assert viewsArr[..] == n.views;
      assert clonesArr[..] == n.clones;
      var viewsDoc := ProcessStatistics(Views, viewsArr, n.timestamp);
      var clonesDoc := ProcessStatistics(Clones, clonesArr, n.timestamp);
      doc := MergeDocuments(viewsDoc, clonesDoc);
    }

    /** `fetchAnalyticsForRepo` for the current collection and repository. */
    method FetchAnalyticsForRepo(store: Store) returns (r: Result<TrafficDoc, string>)
      ensures r.Failure? <==> LoadError(store, collection, repo).Some?
      ensures r.Failure? ==> r.error == LoadError(store, collection, repo).value
      ensures r.Success? ==> Summarises(r.value, store, collection, repo)
    {
      if (collection, repo) !in store {
        return Failure(NoDataError);
      }
      var normalised := Normalise(collection, store[(collection, repo)]);
      if normalised.Failure? {
        return Failure(normalised.error);
      }
      var doc := ProcessData(normalised.value);
      return Success(doc);
    }

    /** One pass of the loop of `getAnalyticsData`: repository `i` becomes the current one and
        is loaded. */
    method LoadNext(store: Store, targets: seq<string>, i: nat, ghost c: Collection, ghost loaded: seq<TrafficDoc>)
      returns (r: Result<TrafficDoc, string>)
      requires i < |targets| && collection == c
      requires SummarisesEach(loaded, store, c, targets[..i])
      requires forall k :: 0 <= k < i ==> LoadError(store, c, targets[k]).None?
      modifies this
      ensures collection == c && useFirebaseEmulator == old(useFirebaseEmulator)
      ensures repo == targets[i]
      ensures r.Failure? ==> FirstFailing(store, c, targets) == Some(i)
      ensures r.Failure? ==> r.error == LoadError(store, c, targets[i]).value
      ensures r.Success? ==> SummarisesEach(loaded + [r.value], store, c, targets[..i + 1])
      ensures r.Success? ==> forall k :: 0 <= k < i + 1 ==> LoadError(store, c, targets[k]).None?
    {
      repo := targets[i];
      r := FetchAnalyticsForRepo(store);
      if r.Failure? {
        FirstFailingAt(store, c, targets, i);
      } else {
        assert targets[..i + 1][..i] == targets[..i];
        assert (loaded + [r.value])[..i] == loaded;
      }
    }

    /** The loop of `getAnalyticsData`: each repository in turn becomes the current one and is
        loaded; the first that cannot be loaded ends the loop with its error. */
    method LoadRepos(store: Store, targets: seq<string>) returns (reply: Result<seq<TrafficDoc>, string>)
      modifies this
      ensures collection == old(collection) && useFirebaseEmulator == old(useFirebaseEmulator)
      ensures reply.Success? <==> FirstFailing(store, collection, targets).None?
      ensures reply.Success? ==> SummarisesEach(reply.value, store, collection, targets)
      ensures reply.Success? ==> repo == if targets == [] then old(repo) else targets[|targets| - 1]
      ensures reply.Failure? ==>
        var k := FirstFailing(store, collection, targets).value;
        repo == targets[k] && reply.error == LoadError(store, collection, targets[k]).value
    {
      ghost var c := collection;
      var analyticsDataArr: seq<TrafficDoc> := [];
      var i := 0;
      while i < |targets|
        invariant 0 <= i <= |targets|
        invariant collection == c && useFirebaseEmulator == old(useFirebaseEmulator)
        invariant SummarisesEach(analyticsDataArr, store, c, targets[..i])
        invariant forall k :: 0 <= k < i ==> LoadError(store, c, targets[k]).None?
        invariant repo == if i == 0 then old(repo) else targets[i - 1]
      {
        var analyticsData := LoadNext(store, targets, i, c, analyticsDataArr);
        if analyticsData.Failure? {
          return Failure(analyticsData.error);
        }
        analyticsDataArr := analyticsDataArr + [analyticsData.value];
        i := i + 1;
      }
      assert targets[..i] == targets;
      reply := Success(analyticsDataArr);
    }

    /** `getAnalyticsData(collection, repo, useFirebaseEmulator)` over a repository list:
        with `'all'` one document per listed repository, in list order, else one document; the
        first repository that cannot be loaded makes the whole request fail. */
    method GetAnalyticsData(store: Store, c: Collection, r: string, useEmulator: bool, repos: seq<string>)
      returns (reply: Result<seq<TrafficDoc>, string>)
      modifies this
      ensures collection == c && useFirebaseEmulator == useEmulator
      ensures var targets := if r == AllRepos then repos else [r];
        && (reply.Success? <==> FirstFailing(store, c, targets).None?)
        && (reply.Success? ==>
              && |reply.value| == |targets|
              && forall i :: 0 <= i < |targets| ==> Summarises(reply.value[i], store, c, targets[i]))
        && (reply.Failure? ==> var k := FirstFailing(store, c, targets).value;
              repo == targets[k] && reply.error == LoadError(store, c, targets[k]).value)
        && (reply.Success? ==> repo == if targets == [] then r else targets[|targets| - 1])
    {
      collection, repo, useFirebaseEmulator := c, r, useEmulator;
      var targets := if r == AllRepos then repos else [r];
      reply := LoadRepos(store, targets);
      if reply.Success? {
        SummarisesEachAll(reply.value, store, c, targets);
      }
    }
  }

  /** Each document summarises the repository at the same position. */
  ghost predicate SummarisesEach(docs: seq<TrafficDoc>, store: Store, c: Collection, repos: seq<string>)
    decreases |docs|
  {
    |docs| == |repos| &&
    (docs != [] ==>
       SummarisesEach(docs[..|docs| - 1], store, c, repos[..|repos| - 1])
       && Summarises(docs[|docs| - 1], store, c, repos[|repos| - 1]))
  }

  lemma {:induction false} SummarisesEachAll(docs: seq<TrafficDoc>, store: Store, c: Collection, repos: seq<string>)
    requires SummarisesEach(docs, store, c, repos)
    ensures |docs| == |repos|
    ensures forall k :: 0 <= k < |docs| ==> Summarises(docs[k], store, c, repos[k])
    decreases |docs|
  {
    if docs != [] {
      var n := |docs| - 1;
      SummarisesEachAll(docs[..n], store, c, repos[..n]);
      forall k | 0 <= k < |docs| ensures Summarises(docs[k], store, c, repos[k]) {
        if k < n {
          assert docs[..n][k] == docs[k] && repos[..n][k] == repos[k];
        }
      }
    }
  }

  /** The first failing repository is the one after a run of loadable ones. */
  lemma {:induction false} FirstFailingAt(store: Store, collection: Collection, repos: seq<string>, i: nat)
    requires i < |repos| && LoadError(store, collection, repos[i]).Some?
    requires forall k :: 0 <= k < i ==> LoadError(store, collection, repos[k]).None?
    ensures FirstFailing(store, collection, repos) == Some(i)
  {
    if i > 0 {
      FirstFailingAt(store, collection, repos[1..], i - 1);
    }
  }
}
