/** The `.env.local` reader of the environment generator (scripts/generate-env.js): the file is
    split into lines on `\r?\n`, each line is matched against
    `/^\s*([\w.-]+)\s*=\s*(.*)?\s*$/`, one pair of surrounding quotes is removed, and later
    assignments win; the process environment then overrides the file.

    The regular expression is spelled out with JavaScript's semantics: `.` stops at a line
    terminator, the greedy `(.*)` keeps trailing whitespace, and when `(.*)?` could only match
    the empty string the group does not participate, so the value is `undefined` (`None`).
    The file system is a parameter: `None` is a file that does not exist. */
module GenerateEnv {
  import opened Wrappers
  import opened Text

  // ---------------------------------------------------------------------------
  // Lines: `content.split(/\r?\n/)`
  // ---------------------------------------------------------------------------

  function DropCarriageReturn(s: string): string {
    if s != [] && s[|s| - 1] == '\r' then s[..|s| - 1] else s
  }

  /** Splitting on `\n` and removing one `\r` before each `\n`. */
  function Lines(content: string): (r: seq<string>)
    ensures |r| == |Split(content, '\n')|
    ensures forall i :: 0 <= i < |r| ==> '\n' !in r[i]
  {
    var pieces := Split(content, '\n');
    seq(|pieces|, i requires 0 <= i < |pieces| =>
      if i < |pieces| - 1 then DropCarriageReturn(pieces[i]) else pieces[i])
  }

  /** The pieces that `split('\n')` sees in lines joined with `\r\n`: a `\r` ends all but the last. */
  function CrPieces(parts: seq<string>): (r: seq<string>)
    ensures |r| == |parts|
  {
    seq(|parts|, i requires 0 <= i < |parts| => if i < |parts| - 1 then parts[i] + "\r" else parts[i])
  }

  lemma {:induction false} DropAddedCarriageReturn(p: string)
    ensures DropCarriageReturn(p + "\r") == p
  {
    assert (p + "\r")[..|p|] == p;
  }

  /** Lines joined with `\r\n` come back as they were. */
  lemma {:induction false} LinesOfCrlf(parts: seq<string>)
    requires |parts| >= 1
    requires forall i :: 0 <= i < |parts| ==> '\n' !in parts[i] && '\r' !in parts[i]
    ensures Lines(JoinCrlf(parts)) == parts
  {
    var pieces := CrPieces(parts);
    JoinCrlfAsJoin(parts);
    forall i | 0 <= i < |pieces| ensures '\n' !in pieces[i] {
      if i < |parts| - 1 {
        assert pieces[i] == parts[i] + "\r";
      }
    }
    SplitJoin(pieces, '\n');
    var lines := Lines(JoinCrlf(parts));
    forall i | 0 <= i < |parts| ensures lines[i] == parts[i] {
      if i < |parts| - 1 {
        DropAddedCarriageReturn(parts[i]);
      }
    }
  }

  function JoinCrlf(parts: seq<string>): string {
    if parts == [] then ""
    else if |parts| == 1 then parts[0]
    else parts[0] + "\r\n" + JoinCrlf(parts[1..])
  }

  lemma {:induction false} JoinCrlfAsJoin(parts: seq<string>)
    requires |parts| >= 1
    ensures JoinCrlf(parts) == Join(CrPieces(parts), '\n')
  {
    if |parts| > 1 {
      JoinCrlfAsJoin(parts[1..]);
      assert CrPieces(parts)[1..] == CrPieces(parts[1..]);
      assert CrPieces(parts)[0] == parts[0] + "\r";
      assert parts[0] + "\r\n" + JoinCrlf(parts[1..]) == (parts[0] + "\r") + ['\n'] + Join(CrPieces(parts[1..]), '\n');
    }
  }

  // ---------------------------------------------------------------------------
  // One line: `/^\s*([\w.-]+)\s*=\s*(.*)?\s*$/`
  // ---------------------------------------------------------------------------

  /** `[\w.-]`. */
  predicate IsKeyChar(c: char) {
    IsWordChar(c) || c == '.' || c == '-'
  }

  /** The length of the leading run of `\s`. */
  function SpaceRun(s: string): (n: nat)
    ensures n <= |s| && AllSpace(s[..n]) && (n == |s| || !IsSpace(s[n]))
  {
    if s != [] && IsSpace(s[0]) then
      var n := 1 + SpaceRun(s[1..]);
      assert s[..n] == [s[0]] + s[1..][..n - 1];
      n
    else 0
  }

  /** The length of the leading run of `[\w.-]`. */
  function KeyRun(s: string): (n: nat)
    ensures n <= |s| && (forall i :: 0 <= i < n ==> IsKeyChar(s[i])) && (n == |s| || !IsKeyChar(s[n]))
  {
    if s != [] && IsKeyChar(s[0]) then 1 + KeyRun(s[1..]) else 0
  }

  /** The length of the leading run that `.` matches. */
  function TextRun(s: string): (n: nat)
    ensures n <= |s| && NoLineTerminator(s[..n]) && (n == |s| || IsLineTerminator(s[n]))
  {
    if s != [] && !IsLineTerminator(s[0]) then
      var n := 1 + TextRun(s[1..]);
      assert s[..n] == [s[0]] + s[1..][..n - 1];
      n
    else 0
  }

  /** `val.slice(1, -1)` when `val` starts and ends with the same quote character. */
  function StripQuotes(v: string): (r: string)
    ensures |v| >= 2 && v[0] == v[|v| - 1] && (v[0] == '"' || v[0] == '\'') ==> r == v[1..|v| - 1]
    ensures |v| == 1 && (v[0] == '"' || v[0] == '\'') ==> r == ""
    ensures v == [] || (v[0] != '"' && v[0] != '\'') || v[0] != v[|v| - 1] ==> r == v
  {
    if v != [] && ((v[0] == '"' && v[|v| - 1] == '"') || (v[0] == '\'' && v[|v| - 1] == '\'')) then
      (if |v| >= 2 then v[1..|v| - 1] else "")
    else v
  }

  datatype Assignment = Assignment(key: string, value: Option<string>)

  /** The match of one line: the key and the (quote-stripped) value, or no match. */
  function ParseLine(line: string): Option<Assignment> {
    var rest := line[SpaceRun(line)..];
    var k := KeyRun(rest);
    var afterKey := rest[k..];
    var b := SpaceRun(afterKey);
    if k == 0 || b == |afterKey| || afterKey[b] != '=' then None
    else
      var tail := afterKey[b + 1..];
      var valueStart := tail[SpaceRun(tail)..];
      var v := valueStart[..TextRun(valueStart)];
      if !AllSpace(valueStart[|v|..]) then None
      else Some(Assignment(rest[..k], if v == [] then None else Some(StripQuotes(v))))
  }

  predicate IsKey(key: string) {
    key != [] && forall i :: 0 <= i < |key| ==> IsKeyChar(key[i])
  }

  /** A line that starts with a key and `=` has no leading blank, and its key run is the key. */
  lemma {:induction false} KeyThenEquals(key: string, tail: string)
    requires IsKey(key)
    ensures var line := key + "=" + tail;
      SpaceRun(line) == 0 && KeyRun(line) == |key| && line[..|key|] == key && line[|key|..] == "=" + tail
  {
    var line := key + "=" + tail;
    assert line[0] == key[0];
    assert !IsSpace(key[0]);
    assert line == key + ("=" + tail);
    KeyRunOf(key, "=" + tail);
  }

  /** After `KEY=` the line is read by its value part alone. */
  lemma {:induction false} ParseAfterKey(key: string, tail: string)
    requires IsKey(key)
    ensures var valueStart := tail[SpaceRun(tail)..];
      var v := valueStart[..TextRun(valueStart)];
      ParseLine(key + "=" + tail) ==
        if !AllSpace(valueStart[|v|..]) then None
        else Some(Assignment(key, if v == [] then None else Some(StripQuotes(v))))
  {
    var line := key + "=" + tail;
    KeyThenEquals(key, tail);
    var afterKey := "=" + tail;
    assert line[0..] == line;
    assert SpaceRun(afterKey) == 0;
    assert afterKey[1..] == tail;
  }

  /** `KEY=value` with a plain value reads back as written. */
  lemma {:induction false} ParsePlain(key: string, value: string)
    requires IsKey(key) && value != [] && !IsSpace(value[0]) && NoLineTerminator(value)
    ensures ParseLine(key + "=" + value) == Some(Assignment(key, Some(StripQuotes(value))))
  {
    ParseAfterKey(key, value);
    assert SpaceRun(value) == 0;
    assert value[0..] == value;
    TextRunAll(value);
    assert value[..|value|] == value;
    assert value[|value|..] == [];
  }

  /** `KEY="text"` (or with single quotes) stores the text without the quotes. */
  lemma {:induction false} ParseQuoted(key: string, text: string, q: char)
    requires IsKey(key) && NoLineTerminator(text) && (q == '"' || q == '\'')
    ensures ParseLine(key + "=" + [q] + text + [q]) == Some(Assignment(key, Some(text)))
  {
    var value := [q] + text + [q];
    assert NoLineTerminator(value) by {
      forall i | 0 <= i < |value| ensures !IsLineTerminator(value[i]) {
        if 0 < i < |value| - 1 {
          assert value[i] == text[i - 1];
        }
      }
    }
    assert key + "=" + [q] + text + [q] == key + "=" + value;
    ParsePlain(key, value);
    assert value[1..|value| - 1] == text;
  }

  /** `KEY=` leaves the value undefined. */
  lemma {:induction false} ParseEmptyValue(key: string)
    requires IsKey(key)
    ensures ParseLine(key + "=") == Some(Assignment(key, None))
  {
    ParseAfterKey(key, []);
    assert key + "=" + [] == key + "=";
  }

  /** Trailing whitespace stays in the value, so a quoted value followed by a blank keeps its
      quotes. */
  lemma {:induction false} TrailingSpaceKeepsQuotes(key: string, text: string)
    requires IsKey(key) && NoLineTerminator(text)
    ensures ParseLine(key + "=\"" + text + "\" ") == Some(Assignment(key, Some("\"" + text + "\" ")))
  {
    var value := "\"" + text + "\" ";
    assert NoLineTerminator(value) by {
      forall i | 0 <= i < |value| ensures !IsLineTerminator(value[i]) {
        if 0 < i < |value| - 2 {
          assert value[i] == text[i - 1];
        }
      }
    }
    assert key + "=\"" + text + "\" " == key + "=" + value;
    ParsePlain(key, value);
    assert value[|value| - 1] == ' ';
  }

  /** Blank lines and `#` comments do not match. */
  lemma {:induction false} BlankAndCommentLinesIgnored(line: string)
    requires AllSpace(line) || (line != [] && line[0] == '#')
    ensures ParseLine(line) == None
  {
    if AllSpace(line) {
      AllSpaceRun(line);
    }
  }

  lemma {:induction false} AllSpaceRun(s: string)
    requires AllSpace(s)
    ensures SpaceRun(s) == |s|
  {
  }

  lemma {:induction false} KeyRunOf(key: string, rest: string)
    requires IsKey(key) && (rest == [] || !IsKeyChar(rest[0]))
    ensures KeyRun(key + rest) == |key|
  {
    if |key| > 1 {
      KeyRunOf(key[1..], rest);
      assert (key + rest)[1..] == key[1..] + rest;
    } else {
      assert (key + rest)[1..] == rest;
    }
  }

  lemma {:induction false} TextRunAll(s: string)
    requires NoLineTerminator(s)
    ensures TextRun(s) == |s|
  {
  }

  // ---------------------------------------------------------------------------
  // The file, the environment and `v()`
  // ---------------------------------------------------------------------------

  /** `env[key] = value` for a matching line; any other line leaves `env` alone. */
  function Assign(env: map<string, Option<string>>, line: string): map<string, Option<string>> {
    match ParseLine(line)
    case Some(a) => env[a.key := a.value]
    case None => env
  }

  /** The dictionary after assigning every matching line of `lines` in order. */
  function Collect(env: map<string, Option<string>>, lines: seq<string>): map<string, Option<string>>
    decreases |lines|
  {
    if lines == [] then env else Collect(Assign(env, lines[0]), lines[1..])
  }

  /** The value of the last line that assigns `key`, if one does. */
  function LastAssignment(lines: seq<string>, key: string): Option<Option<string>> {
    if lines == [] then None
    else
      var last := ParseLine(lines[|lines| - 1]);
      if last.Some? && last.value.key == key then Some(last.value.value)
      else LastAssignment(lines[..|lines| - 1], key)
  }

  lemma {:induction false} CollectSnoc(env: map<string, Option<string>>, lines: seq<string>, line: string)
    ensures Collect(env, lines + [line]) == Assign(Collect(env, lines), line)
    decreases |lines|
  {
    if lines == [] {
      assert [line][1..] == [];
    } else {
      assert (lines + [line])[1..] == lines[1..] + [line];
      CollectSnoc(Assign(env, lines[0]), lines[1..], line);
    }
  }

  /** A later assignment to a key overwrites an earlier one; keys never assigned are absent. */
  lemma {:induction false} LastAssignmentWins(lines: seq<string>, key: string)
    ensures Get(Collect(map[], lines), key) == LastAssignment(lines, key)
    decreases |lines|
  {
    if lines != [] {
      var init := lines[..|lines| - 1];
      assert lines == init + [lines[|lines| - 1]];
      CollectSnoc(map[], init, lines[|lines| - 1]);
      LastAssignmentWins(init, key);
    }
  }

  /** `readDotEnv(file)`. */
  method ReadDotEnv(file: Option<string>) returns (env: map<string, Option<string>>)
    ensures file.None? ==> env == map[]
    ensures file.Some? ==> env == Collect(map[], Lines(file.value))
  {
    env := map[];
    if file.None? {
      return;
    }
    var lines := Lines(file.value);
    var i := 0;
    while i < |lines|
      invariant 0 <= i <= |lines|
      invariant Collect(env, lines[i..]) == Collect(map[], lines)
    {
      assert lines[i..][1..] == lines[i + 1..];
      var m := ParseLine(lines[i]);
      if m.Some? {
        env := env[m.value.key := m.value.value];
      }
      i := i + 1;
    }
  }

  /** `Object.assign({}, dotEnv, process.env)`. */
  function EnvSource(dotEnv: map<string, Option<string>>, processEnv: map<string, string>): (r: map<string, Option<string>>)
    ensures r.Keys == dotEnv.Keys + processEnv.Keys
    ensures forall k :: k in processEnv ==> r[k] == Some(processEnv[k])
    ensures forall k :: k in dotEnv && k !in processEnv ==> r[k] == dotEnv[k]
  {
    map k | k in dotEnv.Keys + processEnv.Keys :: if k in processEnv then Some(processEnv[k]) else dotEnv[k]
  }

  /** `v(key, fallback)`: the stored value unless it is undefined. */
  function V(envSource: map<string, Option<string>>, key: string, fallback: string): string {
    if key in envSource && envSource[key].Some? then envSource[key].value else fallback
  }

  /** The process environment wins; then the last assignment in the file, the empty string
      included; an undefined or absent value gives the fallback. */
  lemma {:induction false} LookupPrecedence(file: string, processEnv: map<string, string>, key: string, fallback: string)
    ensures var src := EnvSource(Collect(map[], Lines(file)), processEnv);
      V(src, key, fallback) ==
        if key in processEnv then processEnv[key]
        else match LastAssignment(Lines(file), key)
          case Some(Some(value)) => value
          case _ => fallback
  {
    LastAssignmentWins(Lines(file), key);
  }
}
