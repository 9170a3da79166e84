# z-control landing page: a verified model of its logic

This project models, in Dafny, the logic of the z-control landing page and of its Firebase
back end. It does not cover their user interface.

- **GitHub traffic collector** (`functions/src/githubAnalytics.ts`):
  - fetches the views and clones of each repository from the GitHub traffic API;
  - overwrites the per-repository snapshot document;
  - merges the daily history document, either all entries on the first run or yesterday's entry on later runs;
  - provides a repair trigger that backfills every snapshot day the history lacks.
- **Analytics reader** (`src/app/services/firebase-firestore.service.ts`): loads a snapshot or history document, normalises its two layouts, sorts each metric newest first and totals it.
- **Analytics dialog** (`src/app/ui/components/github-analytics/github-analytics.component.ts`): shows the totals, the oldest and newest timestamps, the orientation flag and the link to the repository.
- **Changelog reader** (`src/app/services/changelog.service.ts`): a line-driven state machine over `## [version] - date`, `### Section` and `- item` lines.
- **Environment generator's `.env.local` reader** (`scripts/generate-env.js`): parses `KEY=VALUE` lines, and the process environment takes precedence.
- **Privacy-policy catalogue and page** (`src/app/privacy/...`): which policies exist, their titles and files, and the page's language and type fallback.
- **Analytics consent** (`firebase-analytics.service.ts`, `local-storage.service.ts`, `app.component.ts`): the `enabled` flag, the stored decision and the consent banner.

## How the model is built

- Each source file is one module. `Wrappers` holds `Option` and `Result`. `Text` holds the JavaScript string behaviour the source relies on:
  - `split`, `slice(0, n)` and `parseInt`;
  - the character classes `\s`, `\w` and `.`;
  - string `<`.
- Values are datatypes, and code that computes a value is a function.
- Code that updates fields is a class with `modifies` clauses:
  - the Firestore reader;
  - the dialog;
  - the privacy page;
  - the analytics service;
  - the browser store;
  - the root component.
- Loops are `while` loops proved against a specification function:
  - the repository loop and the backfill loop of the collector;
  - the changelog loop;
  - the `.env` loop;
  - the in-place sort and the totals loop of the reader.
- Firestore is a value.
  - The collector sees two collections as maps from repository name to document.
  - A history document is a map from field to value.
  - `set(..., {merge: true})` is `MergeSet`: it updates the named fields and keeps the others.
  - `FieldValue.arrayUnion` is `ArrayUnion`: it appends the given values that are not already present, compared as whole values.
- The GitHub API, the HTTP client and the Firebase SDK are parameters, each given as a map of responses or as flags that say which call throws.
- Clocks are parameters. The collector receives `now` and `yesterday`, because the date arithmetic of the source is outside the model.
- `new Date(a) < new Date(b)` and the sort comparator are modelled as JavaScript's string order on the ISO timestamps.
- The repository lists (`REPOS`) are parameters.

Where the source's own documentation and its code disagree, the model follows the code. One disagreement matters here. The doc comment of `saveGithubAnalyticsTrafficHistory` (`functions/src/githubAnalytics.ts:145-150`) says the history collection holds the data for each day. The daily merge in `functions/src/githubAnalytics.ts:196-215` does not guarantee this, because `arrayUnion` compares whole entries. An entry for yesterday whose counts changed since it was stored is therefore appended beside the stored one. `GithubAnalytics.DailyMergeCanRepeatDay` proves this on a concrete store, and no day-uniqueness invariant is claimed.

## Model

| member | source | states |
|---|---|---|
| Text.Prefix | functions/src/githubAnalytics.ts:200-204 | `slice(0, n)`: the first `min(n, length)` characters |
| Text.ToLowerAscii | src/app/services/changelog.service.ts:59 | `toLowerCase` on ASCII letters, leaving every other character alone |
| Text.StrLessIrreflexive | src/app/ui/components/github-analytics/github-analytics.component.ts:111-120 | no timestamp is earlier than itself |
| Text.StrLessTransitive | src/app/ui/components/github-analytics/github-analytics.component.ts:111-120 | the timestamp order is transitive |
| Text.StrLessTotal | src/app/services/firebase-firestore.service.ts:159 | any two different timestamps are ordered one way or the other |
| Text.StrLessAsymmetric | src/app/services/firebase-firestore.service.ts:159 | no two timestamps are each earlier than the other |
| Text.NotLessTransitive | src/app/ui/components/github-analytics/github-analytics.component.ts:111-120 | "not earlier than" is transitive, which the min/max folds rely on |
| Text.Split | src/app/services/changelog.service.ts:33 | `split(sep)` gives at least one piece and none contains the separator |
| Text.SplitNoSeparator | src/app/services/changelog.service.ts:33 | a string without the separator splits into itself |
| Text.SplitAtSeparator | src/app/services/changelog.service.ts:33 | splitting at the first separator peels off the first piece |
| Text.SplitJoin | src/app/services/changelog.service.ts:33 | splitting joined lines gives the lines back |
| Text.JoinSplit | src/app/services/changelog.service.ts:33 | joining the pieces of a split gives the text back, so no character is lost |
| Text.TrimStart | functions/src/githubAnalytics.ts:294-296 | `parseInt` skips exactly the leading `\s` characters: every dropped character is `\s` and the rest does not start with one |
| Text.DigitPrefix | functions/src/githubAnalytics.ts:294-296 | `parseInt` reads the longest leading run of digits |
| Text.ParseInt | functions/src/githubAnalytics.ts:294-296 | `Number.parseInt(s, 10)` is a number (not NaN) iff a digit follows the optional blanks and sign |
| Text.NatToDecimal | functions/src/githubAnalytics.ts:74 | the decimal text of a status code is non-empty and all digits |
| Text.DecimalValue | functions/src/githubAnalytics.ts:74 | the decimal text denotes the number it was made from |
| Text.DigitPrefixOfDigits | functions/src/githubAnalytics.ts:294-296 | reading stops exactly at the first non-digit |
| Text.ParseIntDecimal | functions/src/githubAnalytics.ts:462-465 | a query `repoIndex` written as `k` followed by a non-digit parses to `k` |
| Text.ParseIntNegative | functions/src/githubAnalytics.ts:462-465 | `-k` parses to a negative index |
| Text.ParseIntMinusDigits | functions/src/githubAnalytics.ts:294-296 | a minus sign followed by digits parses to the negated value of the digits |
| GithubAnalytics.ArrayUnion | functions/src/githubAnalytics.ts:211 | `arrayUnion` keeps the stored array as a prefix, and a value is in the result iff it was stored or added |
| GithubAnalytics.ArrayUnionNoDuplicates | functions/src/githubAnalytics.ts:211 | `arrayUnion` never creates a duplicate |
| GithubAnalytics.ArrayUnionPresent | functions/src/githubAnalytics.ts:211 | adding values that are all present leaves the array as it was |
| GithubAnalytics.ArrayUnionIdempotent | functions/src/githubAnalytics.ts:211 | the same `arrayUnion` twice is the same as once |
| GithubAnalytics.ArrayUnionOne | functions/src/githubAnalytics.ts:211-214 | adding one entry appends it iff it is not already there |
| GithubAnalytics.MergeSetGet | functions/src/githubAnalytics.ts:239 | a merge write changes exactly the fields it names |
| GithubAnalytics.MergeSetUnchanged | functions/src/githubAnalytics.ts:239 | a merge write whose every field already holds its result leaves the document unchanged |
| GithubAnalytics.FirstOnDay | functions/src/githubAnalytics.ts:202-209 | `find`: the first entry whose timestamp prefix or `date` is the day, or none iff no entry is |
| GithubAnalytics.SaveHistory | functions/src/githubAnalytics.ts:154-252 | the snapshot collection is never written, other repositories never change, a missing or malformed snapshot leaves the store unchanged, and a valid one always leaves a history document |
| GithubAnalytics.SaveHistoryFirstRun | functions/src/githubAnalytics.ts:216-226 | a first run writes exactly `repo`, `timestamp` and the two snapshot arrays, and adds `initialized = true` iff both arrays are empty |
| GithubAnalytics.DailyUpdateShape | functions/src/githubAnalytics.ts:191-215 | a later run's `updateData` stamps `repo` and `timestamp`, and it adds a metric iff yesterday's entry exists, as an `arrayUnion` of that one entry |
| GithubAnalytics.SaveHistoryDailyMerge | functions/src/githubAnalytics.ts:196-215 | a later run stamps `repo` and `timestamp`, merges yesterday's entry per metric when there is one, and keeps every other stored field |
| GithubAnalytics.DailyFieldAddsAtMostOne | functions/src/githubAnalytics.ts:210-215 | a daily merge adds at most one entry to a metric, and never one that is already stored |
| GithubAnalytics.HoldsDailyEntry | functions/src/githubAnalytics.ts:210-226 | after either kind of run, yesterday's entry is in the stored metric |
| GithubAnalytics.DailyUpdateFixes | functions/src/githubAnalytics.ts:191-215 | a document that already holds yesterday's entries and the stamps is not changed by the daily write |
| GithubAnalytics.SavedDocIsFixed | functions/src/githubAnalytics.ts:196-239 | the document a run wrote is unchanged by a later run on the same snapshot and clock |
| GithubAnalytics.SaveHistoryIdempotent | functions/src/githubAnalytics.ts:154-252 | a run repeated on the same snapshot and clock leaves the store as one run does |
| GithubAnalytics.DailyMergeCanRepeatDay | functions/src/githubAnalytics.ts:202-215 | an entry for yesterday with revised counts is stored beside the old entry for the same day |
| GithubAnalytics.MissingEntries | functions/src/githubAnalytics.ts:364-374 | an entry is kept iff its day key is non-empty and not in the history, and nothing is kept iff nothing is missing |
| GithubAnalytics.ReportDays | functions/src/githubAnalytics.ts:382-390 | the report is never longer than the entries it reports |
| GithubAnalytics.ReportDaysOfMissing | functions/src/githubAnalytics.ts:382-390 | every appended entry is reported, in order, as `timestamp \|\| date` |
| GithubAnalytics.BackfillRepo | functions/src/githubAnalytics.ts:337-398 | one backfill step writes only that repository's history document and never the snapshots |
| GithubAnalytics.BackfillAppendsMissing | functions/src/githubAnalytics.ts:351-398 | each metric becomes the `arrayUnion` of its stored entries and its missing ones, the report lists those, the store is unchanged iff nothing is missing, and a write stamps `repo` and `timestamp` and keeps every other stored field |
| GithubAnalytics.BackfillFields | functions/src/githubAnalytics.ts:376-393 | the backfill write stamps `repo` and `timestamp`, extends each metric by an `arrayUnion` (a stored non-array field counts as empty) and keeps every other field |
| GithubAnalytics.BackfillUpdateShape | functions/src/githubAnalytics.ts:376-391 | `updateData` holds `repo`, `timestamp`, and a metric's `arrayUnion` exactly when that metric has missing entries |
| GithubAnalytics.MissingIsAbsorbed | functions/src/githubAnalytics.ts:380-393 | a non-empty list of missing entries always changes the stored metric |
| GithubAnalytics.NothingMissingAfterUnion | functions/src/githubAnalytics.ts:351-374 | after the backfill no snapshot entry is missing any more |
| GithubAnalytics.BackfillTwice | functions/src/githubAnalytics.ts:337-398 | a second backfill on an unchanged snapshot inserts nothing and writes nothing |
| GithubAnalytics.BackfillScenario | functions/src/githubAnalytics.ts:351-398 | history days 1-2 and snapshot days 1-3: exactly day 3 is reported and appended |
| GithubAnalytics.ScenarioMissing | functions/src/githubAnalytics.ts:364-367 | in that scenario the missing list is exactly day 3 |
| GithubAnalytics.FetchTraffic | functions/src/githubAnalytics.ts:55-85 | an empty token raises `GITHUB_TOKEN is not defined`, a non-ok response raises `GitHub API error: <status> <text>`, and success returns the body |
| GithubAnalytics.ProcessRepo | functions/src/githubAnalytics.ts:118-142 | no error iff both fetches succeed, a caught error leaves the store untouched, other repositories are never touched, the snapshot is replaced only when `updateTraffic`, and a successful run leaves the store as the history merge (`SaveHistory`) of the store with the snapshot written |
| GithubAnalytics.ProcessRepoLocal | functions/src/githubAnalytics.ts:118-142 | processing a repository depends only on that repository's two documents |
| GithubAnalytics.ProcessAll | functions/src/githubAnalytics.ts:112-114 | one outcome per repository, and repositories outside the list are untouched |
| GithubAnalytics.ProcessAllIsolation | functions/src/githubAnalytics.ts:112-114 | each repository ends up as if processed alone, whatever failed for the others |
| GithubAnalytics.ProcessAllSnoc | functions/src/githubAnalytics.ts:112-114 | one more repository is processed on the store the earlier ones left, and its outcome is appended |
| GithubAnalytics.SelectRepos | functions/src/githubAnalytics.ts:104-115 | an index in range selects that one repository, anything else selects all of them |
| GithubAnalytics.SelectByQueryIndex | functions/src/githubAnalytics.ts:459-471 | a query `repoIndex=k` in range selects exactly repository `k` |
| GithubAnalytics.SelectAllByQuery | functions/src/githubAnalytics.ts:459-471 | an absent, NaN, negative or too large query index selects every repository |
| GithubAnalytics.RunGitHubAnalyticsFetch | functions/src/githubAnalytics.ts:98-116 | the loop's result is the sequential processing of the selected repositories |
| GithubAnalytics.FetchGitHubAnalytics | functions/src/githubAnalytics.ts:266-274 | the scheduled run processes every repository and overwrites the snapshots |
| GithubAnalytics.TestGitHubAnalytics | functions/src/githubAnalytics.ts:287-298 | the HTTP trigger overwrites snapshots unless `updateTraffic=false`, and `repoIndex` selects as above |
| GithubAnalytics.InsertMissingAnalyticsHistory | functions/src/githubAnalytics.ts:327-414 | the loop's store and report are the sequential backfill of the selected repositories, and the first error aborts with the writes made so far kept |
| FirestoreService.Normalise | src/app/services/firebase-firestore.service.ts:94-101 | snapshot documents flatten both `views` and `clones` and need both fields, failing with the undefined-property error; history documents use both arrays as stored and fail with the `sort is not a function` error on a field that is not an array; timestamp defaults to `''` |
| FirestoreService.SumAppend | src/app/services/firebase-firestore.service.ts:161-165 | running totals add up over concatenation |
| FirestoreService.SumRemove | src/app/services/firebase-firestore.service.ts:161-165 | removing an entry removes exactly its count and uniques from the totals |
| FirestoreService.SumPermutation | src/app/services/firebase-firestore.service.ts:159-165 | the totals do not depend on the order, so sorting first does not change them |
| FirestoreService.SameEntriesMultiset | src/app/services/firebase-firestore.service.ts:159 | two arrays have the same number of each entry iff they are permutations of each other |
| FirestoreService.SortDescending | src/app/services/firebase-firestore.service.ts:159 | the array is sorted in place to non-increasing timestamps and keeps the same entries |
| FirestoreService.Insert | src/app/services/firebase-firestore.service.ts:159 | one insertion step extends the sorted prefix and keeps the same entries |
| FirestoreService.InsertStart | src/app/services/firebase-firestore.service.ts:159 | an insertion step starts from a sorted prefix |
| FirestoreService.SwapStep | src/app/services/firebase-firestore.service.ts:159 | a swap moves the entry one place towards its position and keeps the entries |
| FirestoreService.InsertDone | src/app/services/firebase-firestore.service.ts:159 | an entry that is not newer than its left neighbour leaves a sorted prefix |
| FirestoreService.FirstFailing | src/app/services/firebase-firestore.service.ts:50-63 | the first repository that fails to load, and none iff every repository loads |
| FirestoreService.FirstFailingAt | src/app/services/firebase-firestore.service.ts:50-63 | the first failing repository is the one the loop stops at |
| FirestoreService.SummarisesEachAll | src/app/services/firebase-firestore.service.ts:50-56 | the documents built one per repository are, index by index, the summary of that repository |
| FirestoreService.MergePreservesConsistency | src/app/services/firebase-firestore.service.ts:194-214 | adding totals fieldwise and concatenating arrays keeps totals equal to the sums |
| FirestoreService.FirebaseFirestoreService.constructor | src/app/services/firebase-firestore.service.ts:22-25 | the defaults are the landing-page repository, the history collection and no emulator |
| FirestoreService.FirebaseFirestoreService.MergeDocuments | src/app/services/firebase-firestore.service.ts:194-214 | counts and uniques are added fieldwise, each array is doc1's entries followed by doc2's, consistent parts stay consistent, doc2's timestamp is used, and an empty part is the identity |
| FirestoreService.FirebaseFirestoreService.ProcessStatistics | src/app/services/firebase-firestore.service.ts:149-185 | the input array becomes sorted newest first with the same entries, the document totals it, and the other metric is zero and empty |
| FirestoreService.FirebaseFirestoreService.ProcessData | src/app/services/firebase-firestore.service.ts:114-139 | each metric of the result is a sorted permutation of the input and its totals are the sums |
| FirestoreService.FirebaseFirestoreService.FetchAnalyticsForRepo | src/app/services/firebase-firestore.service.ts:83-107 | it fails iff the document is missing (`No analytics data found.`) or malformed, and otherwise returns a document that aggregates the stored one |
| FirestoreService.FirebaseFirestoreService.LoadNext | src/app/services/firebase-firestore.service.ts:51-56 | one pass of the loop sets `repo` to the next repository and either extends the summaries by its document or fails with its error as the first failing one |
| FirestoreService.FirebaseFirestoreService.LoadRepos | src/app/services/firebase-firestore.service.ts:50-63 | the loop succeeds iff every repository loads, giving their summaries in order, and otherwise fails with the first failing repository's error, with `repo` left at that repository |
| FirestoreService.FirebaseFirestoreService.GetAnalyticsData | src/app/services/firebase-firestore.service.ts:40-64 | with `ALL_REPOS`, one summary per repository in list order, otherwise one; it fails with the error of the first repository that cannot be loaded, and the fields record the call |
| AnalyticsComponent.TotalCount | src/app/ui/components/github-analytics/github-analytics.component.ts:74-81 | the sum of `count` over the entries, NaN (`None`) iff some entry has none |
| AnalyticsComponent.TotalUniques | src/app/ui/components/github-analytics/github-analytics.component.ts:83-90 | the sum of `uniques` over the entries, NaN iff some entry has none |
| AnalyticsComponent.TotalsAgreeWithService | src/app/ui/components/github-analytics/github-analytics.component.ts:74-103 | on a processed document the dialog's totals equal the stored totals and the totals of the loaded entries |
| AnalyticsComponent.Stamps | src/app/ui/components/github-analytics/github-analytics.component.ts:111-114 | `map(v => v.timestamp)` keeps length and order |
| AnalyticsComponent.FoldOldest | src/app/ui/components/github-analytics/github-analytics.component.ts:116-119 | the `reduce` for the minimum returns its seed or one of the timestamps |
| AnalyticsComponent.FoldNewest | src/app/ui/components/github-analytics/github-analytics.component.ts:134-137 | the `reduce` for the maximum returns its seed or one of the timestamps |
| AnalyticsComponent.FoldOldestIsLeast | src/app/ui/components/github-analytics/github-analytics.component.ts:116-119 | nothing the fold saw is earlier than its result |
| AnalyticsComponent.FoldNewestIsGreatest | src/app/ui/components/github-analytics/github-analytics.component.ts:134-137 | nothing the fold saw is later than its result |
| AnalyticsComponent.OldestItem | src/app/ui/components/github-analytics/github-analytics.component.ts:110-121 | null iff both arrays are empty, and otherwise one of the timestamps with none earlier |
| AnalyticsComponent.MostRecentItem | src/app/ui/components/github-analytics/github-analytics.component.ts:128-139 | null iff both arrays are empty, and otherwise one of the timestamps with none later |
| AnalyticsComponent.LeastIsUnique | src/app/ui/components/github-analytics/github-analytics.component.ts:110-121 | those two properties determine the oldest timestamp |
| AnalyticsComponent.OldestOfSortedViews | src/app/ui/components/github-analytics/github-analytics.component.ts:110-121 | on views sorted newest first, the oldest timestamp is the last one |
| AnalyticsComponent.SourceCodeUrl | src/app/ui/components/github-analytics/github-analytics.component.ts:175-177 | the link is `https://github.com/zoechbauer/` followed by the repository name |
| AnalyticsComponent.SourceCodeUrlInjective | src/app/ui/components/github-analytics/github-analytics.component.ts:175-177 | different repositories get different links |
| AnalyticsComponent.GithubAnalyticsComponent.constructor | src/app/ui/components/github-analytics/github-analytics.component.ts:51-52 | no data and not portrait at first |
| AnalyticsComponent.GithubAnalyticsComponent.CheckOrientation | src/app/ui/components/github-analytics/github-analytics.component.ts:168-173 | portrait iff width ≤ 600 and height > width |
| AnalyticsComponent.GithubAnalyticsComponent.ShowAnalyticsData | src/app/ui/components/github-analytics/github-analytics.component.ts:187-197 | on success the dialog holds one summary per repository of the history collection, and a failure keeps the old data |
| Changelog.FirstSplit | src/app/services/changelog.service.ts:39 | the lazy `(.+?)` stops at the first `] - ` that leaves a non-empty version and date |
| Changelog.VersionHeader | src/app/services/changelog.service.ts:39 | `^## \[(.+?)\] - (.+)$` matches iff there is such a split and no line terminator, and the groups are the shortest version and the rest |
| Changelog.SectionHeader | src/app/services/changelog.service.ts:57 | `^### (.+)$` matches iff the line starts with `### `, has text after it and no line terminator |
| Changelog.ItemLine | src/app/services/changelog.service.ts:64 | `^- (.+)$` matches iff the line starts with `- `, has text after it and no line terminator |
| Changelog.CarriageReturnNeverMatches | src/app/services/changelog.service.ts:33-64 | a line still ending in `\r` (a CRLF file split on `\n`) matches none of the three patterns |
| Changelog.AddItem | src/app/services/changelog.service.ts:67-80 | an item goes to the list of its section, and an unknown section drops it |
| Changelog.Slice | src/app/services/changelog.service.ts:88 | `slice(0, limit)` is a prefix of length `min(limit, n)`, or `n + limit` for a negative limit |
| Changelog.ParseChangelog | src/app/services/changelog.service.ts:31-89 | the loop's result is the slice of the full parse |
| Changelog.GetLatestChanges | src/app/services/changelog.service.ts:25-29 | the default limit is 3, and the result is never longer than a non-negative limit |
| Changelog.Versions | src/app/services/changelog.service.ts:44-46 | the (version, date) of each entry, in order |
| Changelog.VersionsAppend | src/app/services/changelog.service.ts:42 | versions of a concatenation concatenate |
| Changelog.StepVersions | src/app/services/changelog.service.ts:39-54 | one line adds an entry iff it is a version header, with its captured texts |
| Changelog.RunVersions | src/app/services/changelog.service.ts:37-86 | the entries follow the version headers of any stretch of lines |
| Changelog.EntriesFollowHeaders | src/app/services/changelog.service.ts:37-86 | exactly one entry per version header, in file order, with the captured version and date |
| Changelog.NothingBeforeFirstHeader | src/app/services/changelog.service.ts:58-65 | section and item lines before the first version header have no effect |
| Changelog.ItemAfterHeaderDropped | src/app/services/changelog.service.ts:52-65 | a new version header resets the section, so an item right after it is dropped |
| Changelog.ItemLineEffect | src/app/services/changelog.service.ts:64-81 | an item line appends its exact text to the current section's list, and with no entry or no known section changes nothing |
| Changelog.BareHeaderGivesEmptyEntry | src/app/services/changelog.service.ts:41-86 | a version with no items still yields an entry with four empty lists, both when it is followed by another header and at the end of input |
| GenerateEnv.Lines | scripts/generate-env.js:9 | `split(/\r?\n/)` yields one line per `\n`, none containing `\n` |
| GenerateEnv.LinesOfCrlf | scripts/generate-env.js:9 | lines joined with `\r\n` are split back into the same lines |
| GenerateEnv.JoinCrlfAsJoin | scripts/generate-env.js:9 | joining with `\r\n` is joining with `\n` after a `\r` on each line but the last |
| GenerateEnv.SpaceRun | scripts/generate-env.js:10 | greedy `\s*` takes the whole leading run of whitespace |
| GenerateEnv.KeyRun | scripts/generate-env.js:10 | greedy `[\w.-]+` takes the whole leading run of key characters |
| GenerateEnv.TextRun | scripts/generate-env.js:10 | greedy `(.*)` runs up to the first line terminator |
| GenerateEnv.StripQuotes | scripts/generate-env.js:14-16 | exactly one pair of matching `"` or `'` is removed, a lone quote becomes empty, and any other value is kept |
| GenerateEnv.KeyThenEquals | scripts/generate-env.js:10 | on `KEY=...` the leading `\s*` takes nothing and `[\w.-]+` takes exactly the key |
| GenerateEnv.ParseAfterKey | scripts/generate-env.js:10-17 | after `KEY=` the match depends only on the rest: the value is the `(.*)` run after the blanks that follow `=`, the line matches iff only blanks follow that run, and the captured key is the key |
| GenerateEnv.ParsePlain | scripts/generate-env.js:10-17 | `KEY=value` reads back as the key and the quote-stripped value |
| GenerateEnv.ParseQuoted | scripts/generate-env.js:14-16 | `KEY="text"` or `KEY='text'` stores the text without the quotes |
| GenerateEnv.ParseEmptyValue | scripts/generate-env.js:10-12 | `KEY=` matches with an undefined value |
| GenerateEnv.TrailingSpaceKeepsQuotes | scripts/generate-env.js:10-16 | trailing blanks stay in the value, so `KEY="text" ` keeps its quotes |
| GenerateEnv.BlankAndCommentLinesIgnored | scripts/generate-env.js:10-11 | blank lines and `#` lines do not match |
| GenerateEnv.AllSpaceRun | scripts/generate-env.js:10 | an all-blank line is consumed entirely by the leading `\s*` |
| GenerateEnv.KeyRunOf | scripts/generate-env.js:10 | the key run stops exactly at the first character outside `[\w.-]` |
| GenerateEnv.TextRunAll | scripts/generate-env.js:10 | on a value without line terminators `(.*)` takes all of it |
| GenerateEnv.CollectSnoc | scripts/generate-env.js:9-18 | one more line assigns its key on top of the earlier lines |
| GenerateEnv.LastAssignmentWins | scripts/generate-env.js:17 | a key's value is that of the last line assigning it, and keys never assigned are absent |
| GenerateEnv.ReadDotEnv | scripts/generate-env.js:5-20 | a missing file gives an empty map, and the loop's map is the in-order assignment of the matching lines |
| GenerateEnv.EnvSource | scripts/generate-env.js:23 | its keys are those of both sources, and the process environment wins |
| GenerateEnv.LookupPrecedence | scripts/generate-env.js:23-27 | `v(key, fb)` is the process value, else the file's last value (the empty string included), else `fb` |
| PrivacyService.FindPolicy | src/app/privacy/services/privacy.service.ts:77 | `find` returns a listed policy of the requested type, or none iff there is none |
| PrivacyService.AvailableExactly | src/app/privacy/services/privacy.service.ts:76-79 | a pair is available iff it is basic or premium, in English or German |
| PrivacyService.ContentPathSeparatesTypes | src/app/privacy/services/privacy.service.ts:88-89 | the path `assets/privacy/policies/<type>/<type>-<language>.html` never lets two types share a file |
| PrivacyService.Title | src/app/privacy/services/privacy.service.ts:94-107 | a title is never empty, and it is the fallback `Privacy Policy` exactly for pairs outside the basic/premium × en/de table |
| PrivacyService.TitleFallbackExactly | src/app/privacy/services/privacy.service.ts:94-107 | the fallback title is used iff the pair is not an available policy |
| PrivacyService.TitlesOfAvailable | src/app/privacy/services/privacy.service.ts:94-107 | every available pair has its own table title, never the fallback `Privacy Policy` |
| PrivacyService.GetPolicy | src/app/privacy/services/privacy.service.ts:49-64 | an unavailable pair gives null without a request, and an available one requests its file and gives the requested pair, its title, the content and `2025-06-30`, or null if the download fails |
| PrivacyService.DefaultPolicyRequested | src/app/privacy/services/privacy.service.ts:69-71 | the default is the basic English policy from `assets/privacy/policies/basic/basic-en.html` |
| PrivacyViewer.MapLegacyFromParam | src/app/privacy/components/privacy-viewer/privacy-viewer.component.ts:67-76 | `Future App 1` gives premium, `Future App 2` gives enterprise, and everything else gives basic |
| PrivacyViewer.Fallback | src/app/privacy/components/privacy-viewer/privacy-viewer.component.ts:83-97 | an available pair is kept; otherwise the same type in English if that exists, else basic English |
| PrivacyViewer.FallbackAvailable | src/app/privacy/components/privacy-viewer/privacy-viewer.component.ts:83-97 | whatever was requested, the page settles on an available policy and keeps any known type |
| PrivacyViewer.LanguagesOfTypes | src/app/privacy/components/privacy-viewer/privacy-viewer.component.ts:112-117 | known types offer English and German, and unknown ones only English |
| PrivacyViewer.PrivacyViewerComponent.constructor | src/app/privacy/components/privacy-viewer/privacy-viewer.component.ts:32-38 | the page starts loading basic English with no policy and no languages |
| PrivacyViewer.PrivacyViewerComponent.OtherLanguage | src/app/privacy/components/privacy-viewer/privacy-viewer.component.ts:134-136 | German when the current language is English, and English for every other language |
| PrivacyViewer.PrivacyViewerComponent.LoadAvailableLanguages | src/app/privacy/components/privacy-viewer/privacy-viewer.component.ts:112-117 | the languages of the current type, or `['en']` when the type is unknown, and nothing else changes |
| PrivacyViewer.PrivacyViewerComponent.LoadPolicy | src/app/privacy/components/privacy-viewer/privacy-viewer.component.ts:78-110 | the pair becomes its fallback, which is available; the policy is what the service gives for it; loading ends without error; both languages are offered |
| PrivacyViewer.PrivacyViewerComponent.SwitchLanguage | src/app/privacy/components/privacy-viewer/privacy-viewer.component.ts:119-128 | it navigates to `/privacy/<type>/<language>` iff the language differs from the current one and is offered |
| FirebaseAnalytics.InitNeverEnables | src/app/services/firebase-analytics.service.ts:17-34 | `init` never switches collection on, without a window it changes nothing, and with a measurement id it leaves a handle with collection off |
| FirebaseAnalytics.EnableFollowsConsent | src/app/services/firebase-analytics.service.ts:45-56 | the flag is off without analytics, follows `allow` when the SDK accepts, and otherwise stays as it was |
| FirebaseAnalytics.NoEventsWithoutConsent | src/app/services/firebase-analytics.service.ts:36-56 | no event is forwarded after an accepted refusal, nor after `init` on a service that was not collecting |
| FirebaseAnalytics.FirebaseAnalyticsService.constructor | src/app/services/firebase-analytics.service.ts:13-15 | no app, no analytics, not enabled |
| FirebaseAnalytics.FirebaseAnalyticsService.Init | src/app/services/firebase-analytics.service.ts:17-34 | the new state is `init`'s, and caught errors leave the rest unchanged |
| FirebaseAnalytics.FirebaseAnalyticsService.LogEvent | src/app/services/firebase-analytics.service.ts:36-43 | an event is forwarded iff there is analytics and collection is enabled, a throwing SDK call is swallowed, and the state is unchanged |
| FirebaseAnalytics.FirebaseAnalyticsService.EnableCollection | src/app/services/firebase-analytics.service.ts:45-56 | the new state is `enableCollection`'s |
| LocalStorage.Storage.constructor | src/app/services/local-storage.service.ts:10-20 | an empty store, blocked or not |
| LocalStorage.Storage.SetItem | src/app/services/local-storage.service.ts:11 | `setItem` writes one key, or throws on a blocked store |
| LocalStorage.Storage.GetItem | src/app/services/local-storage.service.ts:15 | `getItem` gives the stored string or null, or throws on a blocked store |
| LocalStorage.ParseConsent | src/app/services/local-storage.service.ts:15-19 | null stays null, `"true"` is consent, and any other string is refusal |
| LocalStorage.ConsentRoundTrip | src/app/services/local-storage.service.ts:10-20 | reading back a written decision gives that decision |
| LocalStorage.SetAnalyticsConsent | src/app/services/local-storage.service.ts:10-12 | only the `analytics_consent` key is written, with `allow.toString()` |
| LocalStorage.GetAnalyticsConsent | src/app/services/local-storage.service.ts:14-20 | the decoded value under `analytics_consent`, or the store's error |
| LocalStorage.StoredConsentReadsBack | src/app/services/local-storage.service.ts:10-20 | after a write the decision reads back, and every other key is unchanged |
| AppComponent.StartupRespectsConsent | src/app/app.component.ts:27-46 | the banner is hidden iff consent was given; a stored decision is applied; without one collection stays off for a service that was off |
| AppComponent.AppComponent.constructor | src/app/app.component.ts:18-25 | the banner is hidden at first |
| AppComponent.AppComponent.NgOnInit | src/app/app.component.ts:27-46 | analytics is initialised, the banner is shown unless the stored consent is `true`, and is shown when the read fails, and a stored decision is applied |
| AppComponent.AppComponent.OnConsentDecision | src/app/app.component.ts:58-62 | the decision is stored, applied and the banner hidden; a throwing store stops the handler before the other two steps |

## Left out

- Network, Firestore, the Firebase SDK, `localStorage` and the file system are not code here. Each is a parameter: a map of responses or documents, and flags for the calls that throw.
- `arrayUnion` and merge-`set` are modelled by their documented behaviour, not by Firestore's implementation. Values are compared as whole entries.
- Date arithmetic: the collector receives `now` and `yesterday`. `new Date()` and `setDate(getDate() - 1)` are outside the model.
- Timestamp order is JavaScript string order on the stored text, standing in for `Date` comparison of ISO timestamps. The two agree for timestamps written in one format.
- The comparator of `sort` is inconsistent on equal timestamps, and JavaScript's `sort` is not specified to be stable. `FirestoreService.FirebaseFirestoreService.ProcessStatistics` therefore promises only a sorted permutation, not a particular order among equal timestamps.
- Concurrency: overlapping scheduled and manual triggers, and the asynchronous order of promise callbacks, are outside the model. Every call completes before the next starts, and the platform's `ready()` has resolved before start-up logic runs.
- Logging, the `logInfo` debug global, HTTP response shaping and the emulator connection are left out. `useFirebaseEmulator` is recorded but connects nothing.
- The route and query-parameter subscriptions of the privacy page, the router `page_view` subscription of the root component and the resize listener are left out. The methods they call are modelled.
- The repository lists are parameters, because the front-end and back-end copies of the constants differ.
- `toLowerCase` is modelled on ASCII letters only. No other character lowercases into `added`, `fixed`, `improved` or `features`, so the section match is unaffected.
- JavaScript object prototype keys (`constructor`, `__proto__`, `toString`) used as keys are not modelled:
  - as a `.env` key;
  - as a legacy `from` value;
  - as a title-table key.
- `makeEnv`, the environment templates and the generated files are left out. So is `getAvailablePolicies`, which only returns the constant table.
- `PrivacyViewer.PrivacyViewerComponent.LoadPolicy`: the `error` callback is not reachable, because `getPolicy` turns every failure into null. The model therefore never sets `error`.
- `GithubAnalytics.ProcessRepo` and `GithubAnalytics.InsertMissingAnalyticsHistory`: a failed write to Firestore is not modelled, and writes always succeed. In the backfill, a throwing `updateHistoryData` would abort the request with status 500 and lose the report; the model has no such path.
- `GithubAnalytics.QueryIndex` and `GithubAnalytics.QueryUpdateTraffic`: query values are single strings. A repeated query key, which Express delivers as an array (`parseInt` then reads the joined text, and `!== 'false'` holds), is not modelled.
- Strings are sequences of Unicode scalar values. JavaScript's `<`, `slice` and `.` work on UTF-16 code units, so `Text.StrLess`, `Text.Prefix` and `GenerateEnv.TextRun` can differ from the source for characters outside the Basic Multilingual Plane. The timestamps, dates and keys involved are ASCII.
- `AnalyticsComponent.TotalCount` and `AnalyticsComponent.TotalUniques`: an absent value stands for `undefined`, which makes the JavaScript sum NaN. A stored `null`, which `+` treats as 0, is not modelled.
