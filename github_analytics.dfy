/** The traffic-history reconciliation of the cloud functions (functions/src/githubAnalytics.ts).

    For each repository the scheduled run fetches the GitHub traffic payloads for views and
    clones, optionally overwrites the snapshot document in `githubAnalyticsTraffic`, and merges
    the snapshot into the history document in `githubAnalyticsTrafficHistory`; the repair trigger
    appends every snapshot entry whose day the history does not know yet.

    Firestore is modelled as a value `Db` holding the two collections as maps from repository
    name to document. `set(data, {merge: true})` and `FieldValue.arrayUnion` are foreign calls and
    are modelled by their documented semantics (MergeSet, ArrayUnion). GitHub is a map from
    request URL to response; clocks are parameters. */
module GithubAnalytics {
  import opened Wrappers
  import opened Text

  // ---------------------------------------------------------------------------
  // Documents
  // ---------------------------------------------------------------------------

  /** One daily traffic entry, as GitHub returns it and as history documents store it.
      Every field may be absent in a stored document. */
  datatype Entry = Entry(timestamp: Option<string>, date: Option<string>, count: Option<int>, uniques: Option<int>)

  /** What sits under `payload.views` (resp. `payload.clones`): absent, an array, or something else. */
  datatype ListField = Absent | List(items: seq<Entry>) | NotList

  /** A traffic payload as the GitHub API returns it: totals and the daily array. */
  datatype Payload = Payload(count: Option<int>, uniques: Option<int>, list: ListField)

  /** A document of `githubAnalyticsTraffic`. */
  datatype Snapshot = Snapshot(timestamp: string, views: Option<Payload>, clones: Option<Payload>)

  /** A field value of a history document; `Number` stands for any other stored scalar. */
  datatype Value = Str(s: string) | Flag(b: bool) | Items(entries: seq<Entry>) | Number(n: int)

  /** The field names the reconciliation reads or writes; any other stored field is `OtherField`. */
  datatype Field = RepoField | TimestampField | ViewsField | ClonesField | InitializedField | OtherField(name: string)

  /** A document of `githubAnalyticsTrafficHistory`: field name to value. */
  type Doc = map<Field, Value>

  /** One field of the data passed to `set(..., {merge: true})`. */
  datatype Update = Put(value: Value) | Union(elements: seq<Entry>)

  /** The two Firestore collections, keyed by repository name. */
  datatype Db = Db(traffic: map<string, Snapshot>, history: map<string, Doc>)

  datatype Repo = Repo(owner: string, name: string)

  // ---------------------------------------------------------------------------
  // Firestore: arrayUnion and merge-set
  // ---------------------------------------------------------------------------

  /** `arrayUnion(...ys)` applied to the stored array `xs`: each element of `ys` that is not
      already present (by whole-value equality) is appended, in order. */
  function ArrayUnion(xs: seq<Entry>, ys: seq<Entry>): (r: seq<Entry>)
    ensures |xs| <= |r| && r[..|xs|] == xs
    ensures forall e :: e in r <==> e in xs || e in ys
    decreases |ys|
  {
    if ys == [] then xs
    else
      var next := if ys[0] in xs then xs else xs + [ys[0]];
      assert forall e :: e in ys <==> e == ys[0] || e in ys[1..];
      ArrayUnion(next, ys[1..])
  }

  predicate NoDuplicates(s: seq<Entry>) {
    forall i, j :: 0 <= i < j < |s| ==> s[i] != s[j]
  }

  /** arrayUnion never introduces two identical entries. */
  lemma {:induction false} ArrayUnionNoDuplicates(xs: seq<Entry>, ys: seq<Entry>)
    requires NoDuplicates(xs)
    ensures NoDuplicates(ArrayUnion(xs, ys))
    decreases |ys|
  {
    if ys != [] {
      var next := if ys[0] in xs then xs else xs + [ys[0]];
      assert NoDuplicates(next);
      ArrayUnionNoDuplicates(next, ys[1..]);
    }
  }

  /** arrayUnion of elements that are all present already changes nothing. */
  lemma {:induction false} ArrayUnionPresent(xs: seq<Entry>, ys: seq<Entry>)
    requires forall e :: e in ys ==> e in xs
    ensures ArrayUnion(xs, ys) == xs
    decreases |ys|
  {
    if ys != [] {
      assert ys[0] in xs;
      assert forall e :: e in ys[1..] ==> e in ys;
      ArrayUnionPresent(xs, ys[1..]);
    }
  }

  /** Applying the same arrayUnion twice has the effect of applying it once. */
  lemma {:induction false} ArrayUnionIdempotent(xs: seq<Entry>, ys: seq<Entry>)
    ensures ArrayUnion(ArrayUnion(xs, ys), ys) == ArrayUnion(xs, ys)
  {
    ArrayUnionPresent(ArrayUnion(xs, ys), ys);
  }

  /** A one-element arrayUnion appends the element exactly when it is not yet present. */
  lemma {:induction false} ArrayUnionOne(xs: seq<Entry>, e: Entry)
    ensures ArrayUnion(xs, [e]) == if e in xs then xs else xs + [e]
  {
    assert [e][1..] == [];
  }

  /** `Array.isArray(v) ? v : []`. */
  function FieldItems(v: Option<Value>): seq<Entry> {
    if v.Some? && v.value.Items? then v.value.entries else []
  }

  /** The value a field takes under one update: a plain value replaces it; an arrayUnion extends
      a stored array and overwrites any other value with the (deduplicated) elements. */
  function ApplyUpdate(current: Option<Value>, u: Update): Value {
    match u
    case Put(v) => v
    case Union(es) => Items(ArrayUnion(FieldItems(current), es))
  }

  /** `set(upd, {merge: true})` on the stored fields `doc` (empty when the document does not exist):
      the fields named in `upd` are updated, every other field is kept. */
  function MergeSet(doc: Doc, upd: map<Field, Update>): Doc {
    map k | k in doc.Keys + upd.Keys :: if k in upd then ApplyUpdate(Get(doc, k), upd[k]) else doc[k]
  }

  lemma {:induction false} MergeSetGet(doc: Doc, upd: map<Field, Update>, k: Field)
    ensures Get(MergeSet(doc, upd), k) == if k in upd then Some(ApplyUpdate(Get(doc, k), upd[k])) else Get(doc, k)
  {
  }

  /** A merge that rewrites every named field with its stored value leaves the document as it is. */
  lemma {:induction false} MergeSetUnchanged(doc: Doc, upd: map<Field, Update>)
    requires forall k :: k in upd ==> k in doc && ApplyUpdate(Some(doc[k]), upd[k]) == doc[k]
    ensures MergeSet(doc, upd) == doc
  {
  }

  // ---------------------------------------------------------------------------
  // Day keys
  // ---------------------------------------------------------------------------

  /** `v.timestamp ? v.timestamp.slice(0, 10) : v.date`, the backfill's day of an entry. */
  function DayKey(e: Entry): Option<string> {
    if e.timestamp.Some? && e.timestamp.value != "" then Some(Prefix(e.timestamp.value, 10)) else e.date
  }

  /** `v.timestamp?.slice(0, 10) === day || v.date === day`, the daily merge's test. */
  predicate OnDay(e: Entry, day: string) {
    (e.timestamp.Some? && Prefix(e.timestamp.value, 10) == day) || e.date == Some(day)
  }

  /** The index of the entry `Array.prototype.find` returns for the daily merge's test. */
  function FirstOnDay(xs: seq<Entry>, day: string): (r: Option<nat>)
    ensures r.None? <==> forall i :: 0 <= i < |xs| ==> !OnDay(xs[i], day)
    ensures r.Some? ==> r.value < |xs| && OnDay(xs[r.value], day)
    ensures r.Some? ==> forall j :: 0 <= j < r.value ==> !OnDay(xs[j], day)
  {
    if xs == [] then None
    else if OnDay(xs[0], day) then Some(0)
    else
      match FirstOnDay(xs[1..], day)
      case None => None
      case Some(i) => Some(i + 1)
  }

  // ---------------------------------------------------------------------------
  // Daily merge: saveGithubAnalyticsTrafficHistory
  // ---------------------------------------------------------------------------

  /** A snapshot the history can be built from: `views.views` and `clones.clones` are arrays. */
  predicate ValidSnapshot(s: Snapshot) {
    s.views.Some? && s.views.value.list.List? && s.clones.Some? && s.clones.value.list.List?
  }

  function SnapshotViews(s: Snapshot): seq<Entry>
    requires ValidSnapshot(s)
  {
    s.views.value.list.items
  }

  function SnapshotClones(s: Snapshot): seq<Entry>
    requires ValidSnapshot(s)
  {
    s.clones.value.list.items
  }

  /** The `updateData` record: `repo` and `timestamp` always; on a first run the snapshot arrays
      (and `initialized` when both are empty); on later runs an arrayUnion of the first entry dated
      `yesterday`, per metric, when there is one. */
  function HistoryUpdate(repo: string, now: string, yesterday: string, views: seq<Entry>,
                         clones: seq<Entry>, historyExists: bool): map<Field, Update>
  {
    var base := map[RepoField := Put(Str(repo)), TimestampField := Put(Str(now))];
    if historyExists then
      var withViews := match FirstOnDay(views, yesterday)
        case Some(i) => base[ViewsField := Union([views[i]])]
        case None => base;
      match FirstOnDay(clones, yesterday)
      case Some(i) => withViews[ClonesField := Union([clones[i]])]
      case None => withViews
    else
      var full := base[ViewsField := Put(Items(views))][ClonesField := Put(Items(clones))];
      if views == [] && clones == [] then full[InitializedField := Put(Flag(true))] else full
  }

  /** The two documents of one repository. */
  function Slot(db: Db, repo: string): (Option<Snapshot>, Option<Doc>) {
    (Get(db.traffic, repo), Get(db.history, repo))
  }

  /** The effect of `saveGithubAnalyticsTrafficHistory(owner, repo)` on the store. */
  function SaveHistory(db: Db, repo: string, now: string, yesterday: string): (r: Db)
    ensures r.traffic == db.traffic
    ensures forall n :: n != repo ==> Get(r.history, n) == Get(db.history, n)
    ensures repo !in db.traffic || !ValidSnapshot(db.traffic[repo]) ==> r == db
    ensures repo in db.traffic && ValidSnapshot(db.traffic[repo]) ==> repo in r.history
  {
    if repo !in db.traffic || !ValidSnapshot(db.traffic[repo]) then db
    else
      var s := db.traffic[repo];
      var present := repo in db.history;
      var upd := HistoryUpdate(repo, now, yesterday, SnapshotViews(s), SnapshotClones(s), present);
      db.(history := db.history[repo := MergeSet(if present then db.history[repo] else map[], upd)])
  }

  /** A first run writes exactly the snapshot arrays, `repo`, `timestamp`, and `initialized = true`
      precisely when both arrays are empty. */
  lemma {:induction false} SaveHistoryFirstRun(db: Db, repo: string, now: string, yesterday: string)
    requires repo in db.traffic && ValidSnapshot(db.traffic[repo]) && repo !in db.history
    ensures var d := SaveHistory(db, repo, now, yesterday).history[repo];
      var views := SnapshotViews(db.traffic[repo]);
      var clones := SnapshotClones(db.traffic[repo]);
      && d.Keys == {RepoField, TimestampField, ViewsField, ClonesField}
                   + (if views == [] && clones == [] then {InitializedField} else {})
      && d[RepoField] == Str(repo) && d[TimestampField] == Str(now)
      && d[ViewsField] == Items(views) && d[ClonesField] == Items(clones)
      && (InitializedField in d ==> d[InitializedField] == Flag(true))
  {
  }

  /** What the daily merge does to one metric field: an arrayUnion of the first entry dated
      `day` when the snapshot has one, otherwise nothing. */
  predicate DailyField(before: Doc, after: Doc, field: Field, snapshot: seq<Entry>, day: string) {
    match FirstOnDay(snapshot, day)
    case Some(i) => Get(after, field) == Some(Items(ArrayUnion(FieldItems(Get(before, field)), [snapshot[i]])))
    case None => Get(after, field) == Get(before, field)
  }

  /** The `updateData` of a later run, field by field. */
  lemma {:induction false} DailyUpdateShape(repo: string, now: string, yesterday: string, views: seq<Entry>, clones: seq<Entry>)
    ensures var upd := HistoryUpdate(repo, now, yesterday, views, clones, true);
      && upd.Keys <= {RepoField, TimestampField, ViewsField, ClonesField}
      && RepoField in upd && upd[RepoField] == Put(Str(repo))
      && TimestampField in upd && upd[TimestampField] == Put(Str(now))
      && (ViewsField in upd <==> FirstOnDay(views, yesterday).Some?)
      && (ViewsField in upd ==> upd[ViewsField] == Union([views[FirstOnDay(views, yesterday).value]]))
      && (ClonesField in upd <==> FirstOnDay(clones, yesterday).Some?)
      && (ClonesField in upd ==> upd[ClonesField] == Union([clones[FirstOnDay(clones, yesterday).value]]))
  {
  }

  /** A later run stamps `repo` and `timestamp`, merges at most yesterday's entry per metric and
      leaves every other stored field as it was. */
  lemma {:induction false} SaveHistoryDailyMerge(db: Db, repo: string, now: string, yesterday: string)
    requires repo in db.traffic && ValidSnapshot(db.traffic[repo]) && repo in db.history
    ensures var before := db.history[repo];
      var after := SaveHistory(db, repo, now, yesterday).history[repo];
      && Get(after, RepoField) == Some(Str(repo)) && Get(after, TimestampField) == Some(Str(now))
      && (forall k :: k != RepoField && k != TimestampField && k != ViewsField && k != ClonesField
            ==> Get(after, k) == Get(before, k))
      && DailyField(before, after, ViewsField, SnapshotViews(db.traffic[repo]), yesterday)
      && DailyField(before, after, ClonesField, SnapshotClones(db.traffic[repo]), yesterday)
  {
    var s := db.traffic[repo];
    var before := db.history[repo];
    var upd := HistoryUpdate(repo, now, yesterday, SnapshotViews(s), SnapshotClones(s), true);
    var after := SaveHistory(db, repo, now, yesterday).history[repo];
    assert after == MergeSet(before, upd);
    DailyUpdateShape(repo, now, yesterday, SnapshotViews(s), SnapshotClones(s));
    forall k ensures Get(after, k) == if k in upd then Some(ApplyUpdate(Get(before, k), upd[k])) else Get(before, k) {
      MergeSetGet(before, upd, k);
    }
  }

  /** Whatever is stored, one daily merge adds at most one entry to a metric and never an
      entry already present. */
  lemma {:induction false} DailyFieldAddsAtMostOne(before: Doc, after: Doc, field: Field, snapshot: seq<Entry>, day: string)
    requires DailyField(before, after, field, snapshot, day)
    requires FirstOnDay(snapshot, day).Some?
    ensures var xs := FieldItems(Get(before, field));
      var e := snapshot[FirstOnDay(snapshot, day).value];
      Get(after, field) == Some(Items(if e in xs then xs else xs + [e]))
  {
    var e := snapshot[FirstOnDay(snapshot, day).value];
    ArrayUnionOne(FieldItems(Get(before, field)), e);
  }

  /** After a run, a metric field holds an array containing the entry of `day` (when there is one). */
  lemma {:induction false} HoldsDailyEntry(before: Doc, after: Doc, field: Field, snapshot: seq<Entry>, day: string, firstRun: bool)
    requires FirstOnDay(snapshot, day).Some?
    requires firstRun ==> Get(after, field) == Some(Items(snapshot))
    requires !firstRun ==> DailyField(before, after, field, snapshot, day)
    ensures Get(after, field).Some? && Get(after, field).value.Items?
    ensures snapshot[FirstOnDay(snapshot, day).value] in Get(after, field).value.entries
  {
  }

  /** A document already stamped and already holding yesterday's entries is left as it is by
      a later run's `updateData`. */
  lemma {:induction false} DailyUpdateFixes(d: Doc, repo: string, now: string, yesterday: string, views: seq<Entry>, clones: seq<Entry>)
    requires Get(d, RepoField) == Some(Str(repo)) && Get(d, TimestampField) == Some(Str(now))
    requires FirstOnDay(views, yesterday).Some? ==>
      ViewsField in d && d[ViewsField].Items? && views[FirstOnDay(views, yesterday).value] in d[ViewsField].entries
    requires FirstOnDay(clones, yesterday).Some? ==>
      ClonesField in d && d[ClonesField].Items? && clones[FirstOnDay(clones, yesterday).value] in d[ClonesField].entries
    ensures MergeSet(d, HistoryUpdate(repo, now, yesterday, views, clones, true)) == d
  {
    var upd := HistoryUpdate(repo, now, yesterday, views, clones, true);
    DailyUpdateShape(repo, now, yesterday, views, clones);
    if ViewsField in upd {
      ArrayUnionPresent(d[ViewsField].entries, [views[FirstOnDay(views, yesterday).value]]);
    }
    if ClonesField in upd {
      ArrayUnionPresent(d[ClonesField].entries, [clones[FirstOnDay(clones, yesterday).value]]);
    }
    MergeSetUnchanged(d, upd);
  }

  /** The document a run wrote is a fixed point of the next run's `updateData`. */
  lemma {:induction false} SavedDocIsFixed(db: Db, repo: string, now: string, yesterday: string)
    requires repo in db.traffic && ValidSnapshot(db.traffic[repo])
    ensures var s := db.traffic[repo];
      var d1 := SaveHistory(db, repo, now, yesterday).history[repo];
      MergeSet(d1, HistoryUpdate(repo, now, yesterday, SnapshotViews(s), SnapshotClones(s), true)) == d1
  {
    var s := db.traffic[repo];
    var views, clones := SnapshotViews(s), SnapshotClones(s);
    var firstRun := repo !in db.history;
    var before := if firstRun then map[] else db.history[repo];
    var d1 := SaveHistory(db, repo, now, yesterday).history[repo];
    if firstRun {
      SaveHistoryFirstRun(db, repo, now, yesterday);
    } else {
      SaveHistoryDailyMerge(db, repo, now, yesterday);
    }
    if FirstOnDay(views, yesterday).Some? {
      HoldsDailyEntry(before, d1, ViewsField, views, yesterday, firstRun);
    }
    if FirstOnDay(clones, yesterday).Some? {
      HoldsDailyEntry(before, d1, ClonesField, clones, yesterday, firstRun);
    }
    DailyUpdateFixes(d1, repo, now, yesterday, views, clones);
  }

  /** Running the reconciliation twice on the same snapshot with the same clock leaves the
      store as one run does, on a first run and on a later one alike. */
  lemma {:induction false} SaveHistoryIdempotent(db: Db, repo: string, now: string, yesterday: string)
    ensures var once := SaveHistory(db, repo, now, yesterday);
      SaveHistory(once, repo, now, yesterday) == once
  {
    var once := SaveHistory(db, repo, now, yesterday);
    if repo in db.traffic && ValidSnapshot(db.traffic[repo]) {
      SavedDocIsFixed(db, repo, now, yesterday);
      assert once.history[repo := once.history[repo]] == once.history;
    }
  }

  /** The daily merge does not keep one entry per day: an entry for yesterday whose counts
      changed since it was first stored is appended beside the stored one. */
  lemma {:induction false} DailyMergeCanRepeatDay()
    ensures var yesterday := "2025-07-01";
      var stored := Entry(Some("2025-07-01T00:00:00Z"), None, Some(5), Some(2));
      var revised := Entry(Some("2025-07-01T00:00:00Z"), None, Some(7), Some(3));
      var db := Db(map["r" := Snapshot("t", Some(Payload(None, None, List([revised]))),
                                           Some(Payload(None, None, List([]))))],
                   map["r" := map[ViewsField := Items([stored])]]);
      var after := SaveHistory(db, "r", "now", yesterday).history["r"][ViewsField];
      after == Items([stored, revised]) && DayKey(stored) == DayKey(revised)
  {
    var yesterday := "2025-07-01";
    var stored := Entry(Some("2025-07-01T00:00:00Z"), None, Some(5), Some(2));
    var revised := Entry(Some("2025-07-01T00:00:00Z"), None, Some(7), Some(3));
    var doc := map[ViewsField := Items([stored])];
    var snap := Snapshot("t", Some(Payload(None, None, List([revised]))), Some(Payload(None, None, List([]))));
    var db := Db(map["r" := snap], map["r" := doc]);
    assert ValidSnapshot(snap) && SnapshotViews(snap) == [revised] && SnapshotClones(snap) == [];
    assert Prefix("2025-07-01T00:00:00Z", 10) == yesterday;
    assert OnDay(revised, yesterday);
    assert FirstOnDay([revised], yesterday) == Some(0);
    var upd := HistoryUpdate("r", "now", yesterday, [revised], [], true);
    assert ViewsField in upd && upd[ViewsField] == Union([revised]);
    MergeSetGet(doc, upd, ViewsField);
    ArrayUnionOne([stored], revised);
    assert MergeSet(doc, upd)[ViewsField] == Items([stored, revised]);
    assert SaveHistory(db, "r", "now", yesterday).history["r"] == MergeSet(doc, upd);
  }

  // ---------------------------------------------------------------------------
  // Backfill: insertMissingAnalyticsHistory
  // ---------------------------------------------------------------------------

  /** `getHistoryEntries`: a stored field that is not an array counts as empty. */
  function HistoryItems(doc: Doc, field: Field): seq<Entry> {
    FieldItems(Get(doc, field))
  }

  /** `new Set(history.map(dayKey))`. */
  function KnownDays(xs: seq<Entry>): set<Option<string>> {
    set e | e in xs :: DayKey(e)
  }

  /** The filter of the backfill: the entry has a non-empty day the history does not know. */
  predicate IsMissing(e: Entry, known: set<Option<string>>) {
    DayKey(e).Some? && DayKey(e).value != "" && DayKey(e) !in known
  }

  function MissingEntries(xs: seq<Entry>, known: set<Option<string>>): (r: seq<Entry>)
    ensures |r| <= |xs|
    ensures forall e :: e in r <==> e in xs && IsMissing(e, known)
    ensures r == [] <==> forall e :: e in xs ==> !IsMissing(e, known)
  {
    if xs == [] then []
    else
      assert forall e :: e in xs <==> e == xs[0] || e in xs[1..];
      (if IsMissing(xs[0], known) then [xs[0]] else []) + MissingEntries(xs[1..], known)
  }

  /** `v.timestamp || v.date`, kept only when it is a string. */
  function ReportDay(e: Entry): Option<string> {
    if e.timestamp.Some? && e.timestamp.value != "" then e.timestamp else e.date
  }

  function ReportDays(xs: seq<Entry>): (r: seq<string>)
    ensures |r| <= |xs|
  {
    if xs == [] then []
    else match ReportDay(xs[0])
      case Some(d) => [d] + ReportDays(xs[1..])
      case None => ReportDays(xs[1..])
  }

  /** Every entry the backfill appends is reported, in order, under `timestamp || date`. */
  lemma {:induction false} ReportDaysOfMissing(xs: seq<Entry>, known: set<Option<string>>)
    ensures var m := MissingEntries(xs, known);
      |ReportDays(m)| == |m|
      && forall i :: 0 <= i < |m| ==> ReportDay(m[i]).Some? && ReportDays(m)[i] == ReportDay(m[i]).value
  {
    if xs != [] {
      ReportDaysOfMissing(xs[1..], known);
      var m := MissingEntries(xs, known);
      if IsMissing(xs[0], known) {
        assert m == [xs[0]] + MissingEntries(xs[1..], known);
        assert m[1..] == MissingEntries(xs[1..], known);
      } else {
        assert m == MissingEntries(xs[1..], known);
      }
    }
  }

  /** `analyticsData?.views?.views ?? []` followed by `.filter`: absent means empty, a value
      that is not an array makes `.filter` throw. */
  function TrafficItems(p: Option<Payload>): Result<seq<Entry>, string> {
    if p.None? then Success([])
    else match p.value.list
      case Absent => Success([])
      case List(xs) => Success(xs)
      case NotList => Failure("TypeError: traffic entries are not an array")
  }

  /** The report of one repository: the days inserted per metric. */
  datatype Inserted = Inserted(views: seq<string>, clones: seq<string>)

  datatype BackfillStep = BackfillStep(db: Db, inserted: Inserted)

  function BackfillUpdate(repo: string, now: string, missingViews: seq<Entry>,
                          missingClones: seq<Entry>): map<Field, Update>
  {
    var base := map[RepoField := Put(Str(repo)), TimestampField := Put(Str(now))];
    var withViews := if missingViews != [] then base[ViewsField := Union(missingViews)] else base;
    if missingClones != [] then withViews[ClonesField := Union(missingClones)] else withViews
  }

  /** The history document as the backfill reads it: `{}` when it does not exist. */
  function HistoryDoc(db: Db, repo: string): Doc {
    if repo in db.history then db.history[repo] else map[]
  }

  /** The body of the backfill loop for one repository. */
  function BackfillRepo(db: Db, repo: string, now: string): (r: Result<BackfillStep, string>)
    ensures r.Success? ==> r.value.db.traffic == db.traffic
    ensures r.Success? ==> forall n :: n != repo ==> Get(r.value.db.history, n) == Get(db.history, n)
  {
    if repo !in db.traffic then Success(BackfillStep(db, Inserted([], [])))
    else
      var doc := HistoryDoc(db, repo);
      var snap := db.traffic[repo];
      var views :- TrafficItems(snap.views);
      var clones :- TrafficItems(snap.clones);
      var mv := MissingEntries(views, KnownDays(HistoryItems(doc, ViewsField)));
      var mc := MissingEntries(clones, KnownDays(HistoryItems(doc, ClonesField)));
      if mv == [] && mc == [] then Success(BackfillStep(db, Inserted([], [])))
      else
        var written := db.(history := db.history[repo := MergeSet(doc, BackfillUpdate(repo, now, mv, mc))]);
        Success(BackfillStep(written, Inserted(ReportDays(mv), ReportDays(mc))))
  }

  /** The missing entries of a metric, as the backfill computes them. */
  function MissingOf(db: Db, repo: string, field: Field, traffic: seq<Entry>): seq<Entry> {
    MissingEntries(traffic, KnownDays(HistoryItems(HistoryDoc(db, repo), field)))
  }

  /** The backfill appends to each metric exactly its missing entries (by arrayUnion), reports
      them, and writes nothing at all when nothing is missing. */
  lemma {:induction false} BackfillAppendsMissing(db: Db, repo: string, now: string)
    requires repo in db.traffic
    requires TrafficItems(db.traffic[repo].views).Success? && TrafficItems(db.traffic[repo].clones).Success?
    ensures var views := TrafficItems(db.traffic[repo].views).value;
      var clones := TrafficItems(db.traffic[repo].clones).value;
      var mv := MissingOf(db, repo, ViewsField, views);
      var mc := MissingOf(db, repo, ClonesField, clones);
      var r := BackfillRepo(db, repo, now);
      && r.Success?
      && HistoryItems(HistoryDoc(r.value.db, repo), ViewsField)
           == ArrayUnion(HistoryItems(HistoryDoc(db, repo), ViewsField), mv)
      && HistoryItems(HistoryDoc(r.value.db, repo), ClonesField)
           == ArrayUnion(HistoryItems(HistoryDoc(db, repo), ClonesField), mc)
      && r.value.inserted == Inserted(ReportDays(mv), ReportDays(mc))
      && (mv == [] && mc == [] <==> r.value.db == db)
      && (mv != [] || mc != [] ==>
            var before := HistoryDoc(db, repo);
            var after := HistoryDoc(r.value.db, repo);
            && Get(after, RepoField) == Some(Str(repo)) && Get(after, TimestampField) == Some(Str(now))
            && forall k :: k != RepoField && k != TimestampField && k != ViewsField && k != ClonesField
                 ==> Get(after, k) == Get(before, k))
  {
    var doc := HistoryDoc(db, repo);
    var views := TrafficItems(db.traffic[repo].views).value;
    var clones := TrafficItems(db.traffic[repo].clones).value;
    var mv := MissingOf(db, repo, ViewsField, views);
    var mc := MissingOf(db, repo, ClonesField, clones);
    var r := BackfillRepo(db, repo, now);
    if mv != [] || mc != [] {
      var d := MergeSet(doc, BackfillUpdate(repo, now, mv, mc));
      assert HistoryDoc(r.value.db, repo) == d;
      BackfillFields(doc, repo, now, mv, mc);
      if mv != [] {
        MissingIsAbsorbed(HistoryItems(doc, ViewsField), views, mv);
      } else {
        MissingIsAbsorbed(HistoryItems(doc, ClonesField), clones, mc);
      }
    }
  }

  /** The backfill's merge stamps `repo` and `timestamp`, extends each metric by an arrayUnion
      of its missing entries and keeps every other stored field. */
  lemma {:induction false} BackfillFields(doc: Doc, repo: string, now: string, mv: seq<Entry>, mc: seq<Entry>)
    ensures var d := MergeSet(doc, BackfillUpdate(repo, now, mv, mc));
      && HistoryItems(d, ViewsField) == ArrayUnion(HistoryItems(doc, ViewsField), mv)
      && HistoryItems(d, ClonesField) == ArrayUnion(HistoryItems(doc, ClonesField), mc)
      && Get(d, RepoField) == Some(Str(repo)) && Get(d, TimestampField) == Some(Str(now))
      && forall k :: k != RepoField && k != TimestampField && k != ViewsField && k != ClonesField
           ==> Get(d, k) == Get(doc, k)
  {
    var upd := BackfillUpdate(repo, now, mv, mc);
    BackfillUpdateShape(repo, now, mv, mc);
    MergeSetGet(doc, upd, ViewsField);
    MergeSetGet(doc, upd, ClonesField);
    MergeSetGet(doc, upd, RepoField);
    MergeSetGet(doc, upd, TimestampField);
    forall k | k != RepoField && k != TimestampField && k != ViewsField && k != ClonesField
      ensures Get(MergeSet(doc, upd), k) == Get(doc, k)
    {
      MergeSetGet(doc, upd, k);
    }
  }

  /** The backfill's update names `repo`, `timestamp` and exactly the metrics with missing entries. */
  lemma {:induction false} BackfillUpdateShape(repo: string, now: string, mv: seq<Entry>, mc: seq<Entry>)
    ensures var upd := BackfillUpdate(repo, now, mv, mc);
      && upd.Keys <= {RepoField, TimestampField, ViewsField, ClonesField}
      && RepoField in upd && upd[RepoField] == Put(Str(repo))
      && TimestampField in upd && upd[TimestampField] == Put(Str(now))
      && (ViewsField in upd <==> mv != []) && (mv != [] ==> upd[ViewsField] == Union(mv))
      && (ClonesField in upd <==> mc != []) && (mc != [] ==> upd[ClonesField] == Union(mc))
  {
  }

  /** A non-empty list of missing entries always changes the stored array. */
  lemma {:induction false} MissingIsAbsorbed(h: seq<Entry>, traffic: seq<Entry>, m: seq<Entry>)
    requires m == MissingEntries(traffic, KnownDays(h)) && m != []
    ensures ArrayUnion(h, m) != h
  {
    var e := m[0];
    assert IsMissing(e, KnownDays(h));
    assert e in ArrayUnion(h, m);
  }

  /** After a backfill, no snapshot entry is missing any more. */
  lemma {:induction false} NothingMissingAfterUnion(h: seq<Entry>, traffic: seq<Entry>)
    ensures var u := ArrayUnion(h, MissingEntries(traffic, KnownDays(h)));
      MissingEntries(traffic, KnownDays(u)) == []
  {
    var m := MissingEntries(traffic, KnownDays(h));
    var u := ArrayUnion(h, m);
    assert KnownDays(h) <= KnownDays(u) by {
      forall d | d in KnownDays(h) ensures d in KnownDays(u) {
        var e :| e in h && DayKey(e) == d;
        assert e in u;
      }
    }
    forall e | e in traffic ensures !IsMissing(e, KnownDays(u)) {
      if IsMissing(e, KnownDays(h)) {
        assert e in m;
        assert e in u;
      }
    }
  }

  /** A second backfill on an unchanged snapshot inserts nothing and writes nothing. */
  lemma {:induction false} BackfillTwice(db: Db, repo: string, now: string, later: string)
    requires BackfillRepo(db, repo, now).Success?
    ensures var once := BackfillRepo(db, repo, now).value.db;
      BackfillRepo(once, repo, later) == Success(BackfillStep(once, Inserted([], [])))
  {
    var once := BackfillRepo(db, repo, now).value.db;
    if repo in db.traffic {
      BackfillAppendsMissing(db, repo, now);
      var views := TrafficItems(db.traffic[repo].views).value;
      var clones := TrafficItems(db.traffic[repo].clones).value;
      NothingMissingAfterUnion(HistoryItems(HistoryDoc(db, repo), ViewsField), views);
      NothingMissingAfterUnion(HistoryItems(HistoryDoc(db, repo), ClonesField), clones);
      assert once.traffic == db.traffic;
      BackfillAppendsMissing(once, repo, later);
    }
  }

  /** A history holding the days 1 and 2 and a snapshot holding the days 1, 2 and 3: the
      backfill reports exactly day 3 and the history then holds the three days. */
  lemma {:induction false} BackfillScenario(d1: Entry, d2: Entry, d3: Entry, db: Db)
    requires d1 == Entry(Some("2025-07-01T00:00:00Z"), None, Some(1), Some(1))
    requires d2 == Entry(Some("2025-07-02T00:00:00Z"), None, Some(2), Some(1))
    requires d3 == Entry(Some("2025-07-03T00:00:00Z"), None, Some(3), Some(1))
    requires db == Db(map["r" := Snapshot("t", Some(Payload(None, None, List([d1, d2, d3]))), None)],
                      map["r" := map[ViewsField := Items([d1, d2])]])
    ensures var r := BackfillRepo(db, "r", "now");
      && r.Success?
      && r.value.inserted == Inserted(["2025-07-03T00:00:00Z"], [])
      && HistoryItems(HistoryDoc(r.value.db, "r"), ViewsField) == [d1, d2, d3]
  {
    ScenarioMissing(d1, d2, d3);
    assert TrafficItems(db.traffic["r"].views) == Success([d1, d2, d3]);
    assert TrafficItems(db.traffic["r"].clones) == Success([]);
    assert HistoryItems(HistoryDoc(db, "r"), ViewsField) == [d1, d2];
    BackfillAppendsMissing(db, "r", "now");
    assert MissingOf(db, "r", ViewsField, [d1, d2, d3]) == [d3];
    assert MissingOf(db, "r", ClonesField, []) == [];
    ArrayUnionOne([d1, d2], d3);
    assert ReportDays([d3]) == ["2025-07-03T00:00:00Z"];
  }

  lemma {:induction false} ScenarioMissing(d1: Entry, d2: Entry, d3: Entry)
    requires d1 == Entry(Some("2025-07-01T00:00:00Z"), None, Some(1), Some(1))
    requires d2 == Entry(Some("2025-07-02T00:00:00Z"), None, Some(2), Some(1))
    requires d3 == Entry(Some("2025-07-03T00:00:00Z"), None, Some(3), Some(1))
    ensures MissingEntries([d1, d2, d3], KnownDays([d1, d2])) == [d3]
  {
    assert DayKey(d1) == Some("2025-07-01") by {
      assert Prefix("2025-07-01T00:00:00Z", 10) == "2025-07-01";
    }
    assert DayKey(d2) == Some("2025-07-02") by {
      assert Prefix("2025-07-02T00:00:00Z", 10) == "2025-07-02";
    }
    assert DayKey(d3) == Some("2025-07-03") by {
      assert Prefix("2025-07-03T00:00:00Z", 10) == "2025-07-03";
    }
    var known := KnownDays([d1, d2]);
    assert d1 in [d1, d2] && d2 in [d1, d2];
    assert !IsMissing(d1, known) && !IsMissing(d2, known);
    assert IsMissing(d3, known);
    assert [d1, d2, d3][1..] == [d2, d3] && [d2, d3][1..] == [d3];
    assert MissingEntries([d3], known) == [d3];
  }

  // ---------------------------------------------------------------------------
  // Fetching and orchestration: fetchTraffic, processRepo, runGitHubAnalyticsFetch
  // ---------------------------------------------------------------------------

  datatype Response = Response(ok: bool, status: nat, statusText: string, body: Payload)

  /** The GitHub side: the token from the environment and the response to each request URL;
      a URL without a response is a request that fails to complete. */
  datatype GitHub = GitHub(token: string, responses: map<string, Response>)

  const TokenMissing := "GITHUB_TOKEN is not defined"
  const RequestFailed := "fetch failed"

  function TrafficUrl(owner: string, repo: string, endpoint: string): string {
    "https://api.github.com/repos/" + owner + "/" + repo + "/traffic/" + endpoint
  }

  /** `fetchTraffic`: an empty token, a failed request and a non-ok response all raise. */
  function FetchTraffic(gh: GitHub, owner: string, repo: string, endpoint: string): (r: Result<Payload, string>)
    ensures gh.token == "" ==> r == Failure(TokenMissing)
    ensures var url := TrafficUrl(owner, repo, endpoint);
      r.Success? <==> gh.token != "" && url in gh.responses && gh.responses[url].ok
    ensures var url := TrafficUrl(owner, repo, endpoint);
      r.Success? ==> r.value == gh.responses[url].body
    ensures var url := TrafficUrl(owner, repo, endpoint);
      gh.token != "" && url in gh.responses && !gh.responses[url].ok ==>
        r == Failure("GitHub API error: " + NatToDecimal(gh.responses[url].status) + " " + gh.responses[url].statusText)
  {
    var url := TrafficUrl(owner, repo, endpoint);
    if gh.token == "" then Failure(TokenMissing)
    else if url !in gh.responses then Failure(RequestFailed)
    else
      var response := gh.responses[url];
      if !response.ok then
        Failure("GitHub API error: " + NatToDecimal(response.status) + " " + response.statusText)
      else Success(response.body)
  }

  /** The store after one repository was processed and the error that was caught, if any. */
  datatype RepoRun = RepoRun(db: Db, error: Option<string>)

  /** `processRepo`: fetch both metrics, overwrite the snapshot when `updateTraffic`, then merge
      the history; any error is caught and leaves the store untouched. */
  function ProcessRepo(db: Db, gh: GitHub, repo: Repo, updateTraffic: bool, now: string, yesterday: string): (r: RepoRun)
    ensures r.error.None? <==> FetchTraffic(gh, repo.owner, repo.name, "views").Success?
                               && FetchTraffic(gh, repo.owner, repo.name, "clones").Success?
    ensures r.error.Some? ==> r.db == db
    ensures forall n :: n != repo.name ==> Slot(r.db, n) == Slot(db, n)
    ensures r.error.None? && updateTraffic ==>
      Get(r.db.traffic, repo.name) == Some(Snapshot(now, Some(FetchTraffic(gh, repo.owner, repo.name, "views").value),
                                                         Some(FetchTraffic(gh, repo.owner, repo.name, "clones").value)))
    ensures !updateTraffic ==> r.db.traffic == db.traffic
    ensures r.error.None? ==>
      var written := if updateTraffic then
          db.(traffic := db.traffic[repo.name := Snapshot(now, Some(FetchTraffic(gh, repo.owner, repo.name, "views").value),
                                                              Some(FetchTraffic(gh, repo.owner, repo.name, "clones").value))])
        else db;
      r.db == SaveHistory(written, repo.name, now, yesterday)
  {
    match FetchTraffic(gh, repo.owner, repo.name, "views")
    case Failure(e) => RepoRun(db, Some(e))
    case Success(views) =>
      match FetchTraffic(gh, repo.owner, repo.name, "clones")
      case Failure(e) => RepoRun(db, Some(e))
      case Success(clones) =>
        var written := if updateTraffic then db.(traffic := db.traffic[repo.name := Snapshot(now, Some(views), Some(clones))]) else db;
        RepoRun(SaveHistory(written, repo.name, now, yesterday), None)
  }

  /** Processing one repository reads and writes only that repository's two documents. */
  lemma {:induction false} ProcessRepoLocal(db1: Db, db2: Db, gh: GitHub, repo: Repo, updateTraffic: bool, now: string, yesterday: string)
    requires Slot(db1, repo.name) == Slot(db2, repo.name)
    ensures var r1 := ProcessRepo(db1, gh, repo, updateTraffic, now, yesterday);
      var r2 := ProcessRepo(db2, gh, repo, updateTraffic, now, yesterday);
      Slot(r1.db, repo.name) == Slot(r2.db, repo.name) && r1.error == r2.error
  {
    var n := repo.name;
    assert n in db1.traffic <==> n in db2.traffic;
    assert n in db1.history <==> n in db2.history;
  }

  /** No repository of the list has the name `n`. */
  predicate NotNamed(repos: seq<Repo>, n: string) {
    forall i :: 0 <= i < |repos| ==> repos[i].name != n
  }

  /** Repositories are processed one after another; the caught errors are listed in order. */
  function ProcessAll(db: Db, gh: GitHub, repos: seq<Repo>, updateTraffic: bool, now: string, yesterday: string): (r: (Db, seq<Option<string>>))
    ensures |r.1| == |repos|
    ensures forall n :: NotNamed(repos, n) ==> Slot(r.0, n) == Slot(db, n)
    decreases |repos|
  {
    if repos == [] then (db, [])
    else
      var run := ProcessRepo(db, gh, repos[0], updateTraffic, now, yesterday);
      var rest := ProcessAll(run.db, gh, repos[1..], updateTraffic, now, yesterday);
      assert forall n :: NotNamed(repos, n) ==> NotNamed(repos[1..], n) && repos[0].name != n;
      (rest.0, [run.error] + rest.1)
  }

  /** Processing one more repository continues from the store the others left and appends its
      error. */
  lemma {:induction false} ProcessAllSnoc(db: Db, gh: GitHub, repos: seq<Repo>, repo: Repo, updateTraffic: bool,
                                          now: string, yesterday: string)
    ensures var before := ProcessAll(db, gh, repos, updateTraffic, now, yesterday);
      var run := ProcessRepo(before.0, gh, repo, updateTraffic, now, yesterday);
      ProcessAll(db, gh, repos + [repo], updateTraffic, now, yesterday) == (run.db, before.1 + [run.error])
    decreases |repos|
  {
    if repos == [] {
      var run := ProcessRepo(db, gh, repo, updateTraffic, now, yesterday);
      assert repos + [repo] == [repo] && [repo][1..] == [];
      assert ProcessAll(run.db, gh, [], updateTraffic, now, yesterday) == (run.db, []);
      assert [run.error] + [] == [] + [run.error];
    } else {
      var first := ProcessRepo(db, gh, repos[0], updateTraffic, now, yesterday);
      assert (repos + [repo])[0] == repos[0];
      assert (repos + [repo])[1..] == repos[1..] + [repo];
      ProcessAllSnoc(first.db, gh, repos[1..], repo, updateTraffic, now, yesterday);
      var rest := ProcessAll(first.db, gh, repos[1..], updateTraffic, now, yesterday);
      var run := ProcessRepo(rest.0, gh, repo, updateTraffic, now, yesterday);
      assert [first.error] + (rest.1 + [run.error]) == ([first.error] + rest.1) + [run.error];
    }
  }

  predicate DistinctNames(repos: seq<Repo>) {
    forall i, j :: 0 <= i < j < |repos| ==> repos[i].name != repos[j].name
  }

  /** Per-repository isolation: in a run over distinct repositories, each repository ends up
      exactly as if it had been processed alone, whatever failed for the others. */
  lemma {:induction false} ProcessAllIsolation(db: Db, gh: GitHub, repos: seq<Repo>, updateTraffic: bool,
                                               now: string, yesterday: string, k: nat)
    requires DistinctNames(repos) && k < |repos|
    decreases k
    ensures var all := ProcessAll(db, gh, repos, updateTraffic, now, yesterday);
      var alone := ProcessRepo(db, gh, repos[k], updateTraffic, now, yesterday);
      Slot(all.0, repos[k].name) == Slot(alone.db, repos[k].name) && all.1[k] == alone.error
  {
    var run := ProcessRepo(db, gh, repos[0], updateTraffic, now, yesterday);
    var rest := repos[1..];
    if k == 0 {
      assert NotNamed(rest, repos[0].name) by {
        forall i | 0 <= i < |rest| ensures rest[i].name != repos[0].name {
          assert rest[i] == repos[i + 1];
        }
      }
    } else {
      assert DistinctNames(rest) by {
        forall i, j | 0 <= i < j < |rest| ensures rest[i].name != rest[j].name {
          assert rest[i] == repos[i + 1] && rest[j] == repos[j + 1];
        }
      }
      ProcessAllIsolation(run.db, gh, rest, updateTraffic, now, yesterday, k - 1);
      assert rest[k - 1] == repos[k];
      assert repos[k].name != repos[0].name;
      ProcessRepoLocal(run.db, db, gh, repos[k], updateTraffic, now, yesterday);
    }
  }

  /** Repository selection (`runGitHubAnalyticsFetch` and `getReposToProcess`): an index
      within the list picks that repository, anything else (absent, NaN, out of range) all. */
  function SelectRepos(repos: seq<Repo>, index: Option<int>): (r: seq<Repo>)
    ensures index.Some? && 0 <= index.value < |repos| ==> r == [repos[index.value]]
    ensures !(index.Some? && 0 <= index.value < |repos|) ==> r == repos
  {
    if index.Some? && 0 <= index.value < |repos| then [repos[index.value]] else repos
  }

  /** `repoIndex ? Number.parseInt(repoIndex, 10) : undefined`; `None` is undefined or NaN. */
  function QueryIndex(q: Option<string>): Option<int> {
    if q.None? || q.value == "" then None else ParseInt(q.value)
  }

  /** `req.query.updateTraffic !== 'false'`. */
  function QueryUpdateTraffic(q: Option<string>): bool {
    q != Some("false")
  }

  /** A query `repoIndex=k` with `k` in range selects only repository `k`. */
  lemma {:induction false} SelectByQueryIndex(repos: seq<Repo>, k: nat, rest: string)
    requires k < |repos| && (rest == [] || !IsDigit(rest[0]))
    ensures SelectRepos(repos, QueryIndex(Some(NatToDecimal(k) + rest))) == [repos[k]]
  {
    ParseIntDecimal(k, rest);
  }

  /** A query index that is absent, not a number, negative or too large selects every repository. */
  lemma {:induction false} SelectAllByQuery(repos: seq<Repo>, q: Option<string>)
    requires QueryIndex(q).None? || QueryIndex(q).value < 0 || QueryIndex(q).value >= |repos|
    ensures SelectRepos(repos, QueryIndex(q)) == repos
  {
  }

  /** `runGitHubAnalyticsFetch(updateTraffic, repoIndex)`. */
  method RunGitHubAnalyticsFetch(db: Db, gh: GitHub, repos: seq<Repo>, updateTraffic: bool,
                                 repoIndex: Option<int>, now: string, yesterday: string)
    returns (result: Db, errors: seq<Option<string>>)
    ensures (result, errors) == ProcessAll(db, gh, SelectRepos(repos, repoIndex), updateTraffic, now, yesterday)
  {
    if repoIndex.Some? && 0 <= repoIndex.value < |repos| {
      var run := ProcessRepo(db, gh, repos[repoIndex.value], updateTraffic, now, yesterday);
      result, errors := run.db, [run.error];
      assert [repos[repoIndex.value]][1..] == [];
      assert [run.error] + [] == [run.error];
    } else {
      result, errors := db, [];
      var i := 0;
      while i < |repos|
        invariant 0 <= i <= |repos|
        invariant (result, errors) == ProcessAll(db, gh, repos[..i], updateTraffic, now, yesterday)
      {
        ProcessAllSnoc(db, gh, repos[..i], repos[i], updateTraffic, now, yesterday);
        assert repos[..i + 1] == repos[..i] + [repos[i]];
        var run := ProcessRepo(result, gh, repos[i], updateTraffic, now, yesterday);
        result, errors := run.db, errors + [run.error];
        i := i + 1;
      }
      assert repos[..i] == repos;
    }
  }

  /** The scheduled trigger: every repository, snapshot overwritten. */
  method FetchGitHubAnalytics(db: Db, gh: GitHub, repos: seq<Repo>, now: string, yesterday: string)
    returns (result: Db)
    ensures result == ProcessAll(db, gh, repos, true, now, yesterday).0
  {
    var errors;
    result, errors := RunGitHubAnalyticsFetch(db, gh, repos, true, None, now, yesterday);
  }

  /** The on-demand trigger `testGitHubAnalytics`, from its two query values. */
  method TestGitHubAnalytics(db: Db, gh: GitHub, repos: seq<Repo>, updateTrafficQuery: Option<string>,
                             repoIndexQuery: Option<string>, now: string, yesterday: string)
    returns (result: Db)
    ensures result == ProcessAll(db, gh, SelectRepos(repos, QueryIndex(repoIndexQuery)),
                                 updateTrafficQuery != Some("false"), now, yesterday).0
  {
    var errors;
    result, errors := RunGitHubAnalyticsFetch(db, gh, repos, QueryUpdateTraffic(updateTrafficQuery),
                                              QueryIndex(repoIndexQuery), now, yesterday);
  }

  // ---------------------------------------------------------------------------
  // The repair trigger's loop
  // ---------------------------------------------------------------------------

  /** The backfill loop over the selected repositories; the first error aborts the request
      (HTTP 500) while the writes already made stay. */
  function BackfillFrom(db: Db, inserted: map<string, Inserted>, repos: seq<Repo>, now: string)
    : (Db, Result<map<string, Inserted>, string>)
    decreases |repos|
  {
    if repos == [] then (db, Success(inserted))
    else
      match BackfillRepo(db, repos[0].name, now)
      case Failure(e) => (db, Failure(e))
      case Success(step) => BackfillFrom(step.db, inserted[repos[0].name := step.inserted], repos[1..], now)
  }

  /** `insertMissingAnalyticsHistory`, from its `repoIndex` query value. */
  method InsertMissingAnalyticsHistory(db: Db, repos: seq<Repo>, repoIndexQuery: Option<string>, now: string)
    returns (result: Db, reply: Result<map<string, Inserted>, string>)
    ensures (result, reply) == BackfillFrom(db, map[], SelectRepos(repos, QueryIndex(repoIndexQuery)), now)
  {
    var toProcess := SelectRepos(repos, QueryIndex(repoIndexQuery));
    var inserted: map<string, Inserted> := map[];
    result := db;
    var i := 0;
    while i < |toProcess|
      invariant 0 <= i <= |toProcess|
      invariant BackfillFrom(result, inserted, toProcess[i..], now) == BackfillFrom(db, map[], toProcess, now)
    {
      assert toProcess[i..][1..] == toProcess[i + 1..];
      var repo := toProcess[i].name;
      ghost var before := inserted;
      inserted := inserted[repo := Inserted([], [])];
      var step := BackfillRepo(result, repo, now);
      if step.Failure? {
        reply := Failure(step.error);
        return;
      }
      result := step.value.db;
      inserted := inserted[repo := step.value.inserted];
      assert inserted == before[repo := step.value.inserted];
      i := i + 1;
    }
    reply := Success(inserted);
  }
}
