/** The changelog reader (src/app/services/changelog.service.ts): a line-driven state machine
    over `## [version] - date` headers, `### Section` headers and `- item` lines, followed by
    `slice(0, limit)`.

    The three regular expressions are spelled out: they are anchored at both ends and `.` does
    not match a line terminator, so a line holding `\r` (the tail of a CRLF line once the text is
    split on `\n`) never matches any of them. */
module Changelog {
  import opened Wrappers
  import opened Text

  datatype Entry = Entry(version: string, date: string, added: seq<string>, fixed: seq<string>,
                         improved: seq<string>, features: seq<string>)

  // ---------------------------------------------------------------------------
  // The three line patterns
  // ---------------------------------------------------------------------------

  /** After `## [`, the version may end at `k`: `] - ` follows and the date is not empty. */
  predicate HeaderSplitAt(rest: string, k: nat) {
    1 <= k && k + 4 < |rest| && rest[k..k + 4] == "] - "
  }

  /** The first split at or after `k`: the lazy `(.+?)` takes the shortest version. */
  function FirstSplit(rest: string, k: nat): (r: Option<nat>)
    ensures r.None? ==> forall j :: k <= j ==> !HeaderSplitAt(rest, j)
    ensures r.Some? ==> k <= r.value && HeaderSplitAt(rest, r.value)
    ensures r.Some? ==> forall j :: k <= j < r.value ==> !HeaderSplitAt(rest, j)
    decreases |rest| - k
  {
    if k + 4 >= |rest| then None
    else if HeaderSplitAt(rest, k) then Some(k)
    else FirstSplit(rest, k + 1)
  }

  /** `line.match(/^## \[(.+?)\] - (.+)$/)`: the version and the date. */
  function VersionHeader(line: string): (r: Option<(string, string)>)
    ensures r.Some? <==> StartsWith(line, "## [") && NoLineTerminator(line)
                         && exists k :: HeaderSplitAt(line[4..], k)
    ensures r.Some? ==> var rest := line[4..]; var k := |r.value.0|;
      && HeaderSplitAt(rest, k) && (forall j :: 1 <= j < k ==> !HeaderSplitAt(rest, j))
      && r.value.0 == rest[..k] && r.value.1 == rest[k + 4..]
  {
    if StartsWith(line, "## [") && NoLineTerminator(line) then
      var rest := line[4..];
      match FirstSplit(rest, 1)
      case None => None
      case Some(k) => Some((rest[..k], rest[k + 4..]))
    else None
  }

  /** `line.match(/^### (.+)$/)`: the section name. */
  function SectionHeader(line: string): (r: Option<string>)
    ensures r.Some? <==> StartsWith(line, "### ") && |line| > 4 && NoLineTerminator(line)
    ensures r.Some? ==> line == "### " + r.value
  {
    if StartsWith(line, "### ") && |line| > 4 && NoLineTerminator(line) then Some(line[4..]) else None
  }

  /** `line.match(/^- (.+)$/)`: the item text. */
  function ItemLine(line: string): (r: Option<string>)
    ensures r.Some? <==> StartsWith(line, "- ") && |line| > 2 && NoLineTerminator(line)
    ensures r.Some? ==> line == "- " + r.value
  {
    if StartsWith(line, "- ") && |line| > 2 && NoLineTerminator(line) then Some(line[2..]) else None
  }

  /** A line that ends in `\r` matches none of the patterns. */
  lemma {:induction false} CarriageReturnNeverMatches(line: string)
    requires line != [] && line[|line| - 1] == '\r'
    ensures VersionHeader(line).None? && SectionHeader(line).None? && ItemLine(line).None?
  {
    assert !NoLineTerminator(line);
  }

  // ---------------------------------------------------------------------------
  // The state machine
  // ---------------------------------------------------------------------------

  /** `entries`, `currentEntry` and `currentSection` (lower-cased). */
  datatype State = State(entries: seq<Entry>, current: Option<Entry>, section: Option<string>)

  const Start := State([], None, None)

  predicate KnownSection(s: string) {
    s == "added" || s == "fixed" || s == "improved" || s == "features"
  }

  /** The `switch (currentSection)`: the item goes to the end of the named list, or nowhere. */
  function AddItem(e: Entry, section: string, item: string): (r: Entry)
    ensures !KnownSection(section) ==> r == e
    ensures r.version == e.version && r.date == e.date
  {
    if section == "added" then e.(added := e.added + [item])
    else if section == "fixed" then e.(fixed := e.fixed + [item])
    else if section == "improved" then e.(improved := e.improved + [item])
    else if section == "features" then e.(features := e.features + [item])
    else e
  }

  /** One iteration of the loop. */
  function Step(st: State, line: string): State {
    match VersionHeader(line)
    case Some((version, date)) =>
      var closed := if st.current.Some? then st.entries + [st.current.value] else st.entries;
      State(closed, Some(Entry(version, date, [], [], [], [])), None)
    case None =>
      if SectionHeader(line).Some? && st.current.Some? then
        st.(section := Some(ToLowerAscii(SectionHeader(line).value)))
      else if ItemLine(line).Some? && st.current.Some? && st.section.Some? then
        st.(current := Some(AddItem(st.current.value, st.section.value, ItemLine(line).value)))
      else st
  }

  function Run(st: State, lines: seq<string>): State
    decreases |lines|
  {
    if lines == [] then st else Run(Step(st, lines[0]), lines[1..])
  }

  /** The entries once the last open entry is pushed. */
  function Finish(st: State): seq<Entry> {
    if st.current.Some? then st.entries + [st.current.value] else st.entries
  }

  function ParseAll(content: string): seq<Entry> {
    Finish(Run(Start, Split(content, '\n')))
  }

  /** `entries.slice(0, limit)` for an integral `limit`. */
  function Slice(s: seq<Entry>, limit: int): (r: seq<Entry>)
    ensures |r| <= |s| && r == s[..|r|]
    ensures limit >= 0 ==> |r| == Min(limit, |s|)
    ensures limit < 0 ==> |r| == if |s| + limit > 0 then |s| + limit else 0
  {
    if limit >= 0 then s[..Min(limit, |s|)]
    else if |s| + limit > 0 then s[..|s| + limit]
    else []
  }

  /** `parseChangelog(content, limit)`. */
  method ParseChangelog(content: string, limit: int) returns (result: seq<Entry>)
    ensures result == Slice(ParseAll(content), limit)
  {
    var entries: seq<Entry> := [];
    var lines := Split(content, '\n');
    var currentEntry: Option<Entry> := None;
    var currentSection: Option<string> := None;
    var i := 0;
    while i < |lines|
      invariant 0 <= i <= |lines|
      invariant Run(State(entries, currentEntry, currentSection), lines[i..]) == Run(Start, lines)
    {
      assert lines[i..][1..] == lines[i + 1..];
      var line := lines[i];
      i := i + 1;
      var versionMatch := VersionHeader(line);
      if versionMatch.Some? {
        if currentEntry.Some? {
          entries := entries + [currentEntry.value];
        }
        currentEntry := Some(Entry(versionMatch.value.0, versionMatch.value.1, [], [], [], []));
        currentSection := None;
        continue;
      }
      var sectionMatch := SectionHeader(line);
      if sectionMatch.Some? && currentEntry.Some? {
        currentSection := Some(ToLowerAscii(sectionMatch.value));
        continue;
      }
      var itemMatch := ItemLine(line);
      if itemMatch.Some? && currentEntry.Some? && currentSection.Some? {
        currentEntry := Some(AddItem(currentEntry.value, currentSection.value, itemMatch.value));
      }
    }
    if currentEntry.Some? {
      entries := entries + [currentEntry.value];
    }
    result := Slice(entries, limit);
  }

  /** `getLatestChanges(limit = 3)` on the fetched text. */
  method GetLatestChanges(content: string, limit: Option<int>) returns (result: seq<Entry>)
    ensures result == Slice(ParseAll(content), limit.GetOr(3))
    ensures |result| <= limit.GetOr(3) || limit.GetOr(3) < 0
  {
    result := ParseChangelog(content, limit.GetOr(3));
  }

  // ---------------------------------------------------------------------------
  // Properties
  // ---------------------------------------------------------------------------

  /** The `(version, date)` pairs of the header lines, in order. */
  function Headers(lines: seq<string>): seq<(string, string)> {
    if lines == [] then []
    else (if VersionHeader(lines[0]).Some? then [VersionHeader(lines[0]).value] else []) + Headers(lines[1..])
  }

  function Versions(es: seq<Entry>): (r: seq<(string, string)>)
    ensures |r| == |es| && forall i :: 0 <= i < |es| ==> r[i] == (es[i].version, es[i].date)
  {
    if es == [] then [] else [(es[0].version, es[0].date)] + Versions(es[1..])
  }

  lemma {:induction false} VersionsAppend(a: seq<Entry>, b: seq<Entry>)
    ensures Versions(a + b) == Versions(a) + Versions(b)
  {
  }

  lemma {:induction false} StepVersions(st: State, line: string)
    ensures Versions(Finish(Step(st, line))) ==
      Versions(Finish(st)) + (if VersionHeader(line).Some? then [VersionHeader(line).value] else [])
  {
    var next := Step(st, line);
    if VersionHeader(line).Some? {
      VersionsAppend(Finish(st), [next.current.value]);
    } else if next != st {
      VersionsAppend(st.entries, [st.current.value]);
      VersionsAppend(st.entries, [next.current.value]);
    }
  }

  lemma {:induction false} RunVersions(st: State, lines: seq<string>)
    ensures Versions(Finish(Run(st, lines))) == Versions(Finish(st)) + Headers(lines)
    decreases |lines|
  {
    if lines != [] {
      StepVersions(st, lines[0]);
      RunVersions(Step(st, lines[0]), lines[1..]);
    }
  }

  /** One entry per version header line, in file order, with the captured version and date. */
  lemma {:induction false} EntriesFollowHeaders(content: string)
    ensures Versions(ParseAll(content)) == Headers(Split(content, '\n'))
  {
    RunVersions(Start, Split(content, '\n'));
  }

  /** Before the first version header nothing has any effect, `### X` lines included. */
  lemma {:induction false} NothingBeforeFirstHeader(st: State, lines: seq<string>)
    requires st.current.None?
    requires forall i :: 0 <= i < |lines| ==> VersionHeader(lines[i]).None?
    ensures Run(st, lines) == st
    decreases |lines|
  {
    if lines != [] {
      assert Step(st, lines[0]) == st;
      NothingBeforeFirstHeader(st, lines[1..]);
    }
  }

  /** A version header resets the section: an item line right after it is dropped. */
  lemma {:induction false} ItemAfterHeaderDropped(st: State, header: string, item: string)
    requires VersionHeader(header).Some? && ItemLine(item).Some?
    ensures Step(Step(st, header), item) == Step(st, header)
  {
    assert VersionHeader(item).None? by {
      assert item[0] == '-';
    }
    assert SectionHeader(item).None? by {
      assert item[0] == '-';
    }
  }

  /** An item line is recorded only under a current entry and a known section, at the end of
      that section's list and with the exact text after `- `; otherwise it changes nothing. */
  lemma {:induction false} ItemLineEffect(st: State, line: string)
    requires ItemLine(line).Some?
    ensures var next := Step(st, line);
      var item := line[2..];
      if st.current.Some? && st.section.Some? && KnownSection(st.section.value) then
        && next.entries == st.entries && next.section == st.section && next.current.Some?
        && var e, e' := st.current.value, next.current.value;
        && e'.version == e.version && e'.date == e.date
        && e'.added == e.added + (if st.section.value == "added" then [item] else [])
        && e'.fixed == e.fixed + (if st.section.value == "fixed" then [item] else [])
        && e'.improved == e.improved + (if st.section.value == "improved" then [item] else [])
        && e'.features == e.features + (if st.section.value == "features" then [item] else [])
      else next == st
  {
    assert VersionHeader(line).None? by {
      assert line[0] == '-';
    }
    assert SectionHeader(line).None? by {
      assert line[0] == '-';
    }
  }

  /** An entry whose header is directly followed by another header (or by nothing) is still
      listed, with four empty lists. */
  lemma {:induction false} BareHeaderGivesEmptyEntry(st: State, h1: string, h2: string)
    requires VersionHeader(h1).Some? && VersionHeader(h2).Some?
    ensures var v := VersionHeader(h1).value;
      var e := Entry(v.0, v.1, [], [], [], []);
      && Finish(Step(st, h1)) == Finish(st) + [e]
      && Step(Step(st, h1), h2).entries == Finish(st) + [e]
  {
  }
}
