/**
 The parser of the workspace `.env` file.  (packages/config/src/load-workspace-env.ts)
 */
module EnvParser {
  import opened Options

  // ---------- strings ----------

  predicate IsSpace(c: char) {
    || c in {'\t', '\n', '\r', ' '}
    || c in {'\U{000B}', '\U{000C}', '\U{00A0}', '\U{1680}', '\U{2028}', '\U{2029}', '\U{202F}', '\U{205F}', '\U{3000}', '\U{FEFF}'}
    || '\U{2000}' <= c <= '\U{200A}'
  }

  function TrimStart(s: string): string {
    if s != "" && IsSpace(s[0]) then TrimStart(s[1..]) else s
  }

  function TrimEnd(s: string): string {
    if s != "" && IsSpace(s[|s| - 1]) then TrimEnd(s[..|s| - 1]) else s
  }

  function Trim(s: string): string {
    TrimEnd(TrimStart(s))
  }

  /** The first place of a character, or the length if there is none. */
  function IndexOf(s: string, c: char): (i: nat)
    ensures i <= |s|
    ensures c !in s[..i]
    ensures i < |s| ==> s[i] == c
    ensures i == |s| <==> c !in s
  {
    if s == "" || s[0] == c then 0 else 1 + IndexOf(s[1..], c)
  }

  predicate Includes(s: string, part: string) {
    part <= s || (s != "" && Includes(s[1..], part))
  }

  function DropReturn(line: string): string {
    if line != "" && line[|line| - 1] == '\r' then line[..|line| - 1] else line
  }

  /** `content.split(/\r?\n/)`. */
  function SplitLines(content: string): (lines: seq<string>)
    ensures lines != []
    decreases |content|
  {
    var i := IndexOf(content, '\n');
    if i == |content| then [content] else [DropReturn(content[..i])] + SplitLines(content[i + 1..])
  }

  /** A backslash followed by an n. */
  const ESCAPED_NEWLINE := "\\n"

  /** `ESCAPED_NEWLINE <= s`. */
  predicate StartsWithPair(s: string)
  {
    |s| >= 2 && s[0] == '\\' && s[1] == 'n'
  }

  predicate HoldsPair(s: string) {
    s != "" && (StartsWithPair(s) || HoldsPair(s[1..]))
  }

  /** `replace(/\\n/g, '\n')`. */
  function Unescape(s: string): string {
    if s == "" then ""
    else if StartsWithPair(s) then "\n" + Unescape(s[2..])
    else [s[0]] + Unescape(s[1..])
  }

  function StripMatchingQuotes(value: string): string {
    if |value| >= 2 && (value[0] == '"' || value[0] == '\'') && value[|value| - 1] == value[0]
    then value[1..|value| - 1] else value
  }

  function Finish(value: string): string {
    Unescape(StripMatchingQuotes(value))
  }

  // ---------- the parser as a specification ----------

  const BEGIN := "-----BEGIN "
  const END := "-----END "

  predicate IsEntry(line: string) {
    Trim(line) != "" && Trim(line)[0] != '#' && 0 < IndexOf(line, '=') < |line|
  }

  function KeyOf(line: string): string
    requires IsEntry(line)
  {
    Trim(line[..IndexOf(line, '=')])
  }

  function RawValueOf(line: string): string
    requires IsEntry(line)
  {
    line[IndexOf(line, '=') + 1..]
  }

  predicate OpensBlock(value: string) {
    BEGIN <= value && !Includes(value, END)
  }

  /** How many lines belong to a block that was just opened: up to its END line, or all of them. */
  function BlockLength(lines: seq<string>): (n: nat)
    ensures n <= |lines|
  {
    if lines == [] then 0
    else if END <= lines[0] then 1
    else 1 + BlockLength(lines[1..])
  }

  function Append(value: string, lines: seq<string>): string
    decreases |lines|
  {
    if lines == [] then value else Append(value + "\n" + lines[0], lines[1..])
  }

  function ParseLines(lines: seq<string>, values: map<string, string>): map<string, string>
    decreases |lines|
  {
    if lines == [] then values
    else if !IsEntry(lines[0]) then ParseLines(lines[1..], values)
    else
      var value := RawValueOf(lines[0]);
      var n := if OpensBlock(value) then BlockLength(lines[1..]) else 0;
      ParseLines(lines[n + 1..], values[KeyOf(lines[0]) := Finish(Append(value, lines[1..n + 1]))])
  }

  function Parse(content: string): map<string, string> {
    ParseLines(SplitLines(content), map[])
  }

  // ---------- the parser as the loops of the source ----------

  lemma SkipLine(lines: seq<string>, index: nat, values: map<string, string>)
    requires index < |lines| && !IsEntry(lines[index])
    ensures ParseLines(lines[index..], values) == ParseLines(lines[index + 1..], values)
  {
    assert lines[index..][1..] == lines[index + 1..];
  }

  lemma NoLines(value: string, lines: seq<string>)
    ensures lines == [] ==> Append(value, lines) == value
  {
  }

  lemma ReadEntry(lines: seq<string>, index: nat, last: nat, values: map<string, string>)
    requires index < |lines| && IsEntry(lines[index])
    requires last == index + if OpensBlock(RawValueOf(lines[index])) then BlockLength(lines[index + 1..]) else 0
    ensures last < |lines|
    ensures ParseLines(lines[index..], values) == ParseLines(lines[last + 1..],
        values[KeyOf(lines[index]) := Finish(Append(RawValueOf(lines[index]), lines[index + 1..last + 1]))])
  {
    hide IsEntry, KeyOf, RawValueOf, OpensBlock, Finish, BlockLength;
    var rest := lines[index..];
    assert rest[1..] == lines[index + 1..];
    assert rest[1..last - index + 1] == lines[index + 1..last + 1];
    assert rest[last - index + 1..] == lines[last + 1..];
  }

  method ParseWorkspaceEnv(content: string) returns (values: map<string, string>)
    ensures values == Parse(content)
  {
    hide ParseLines, SplitLines, IsEntry, KeyOf, RawValueOf, OpensBlock, BlockLength, Append, Finish;
    values := map[];
    var lines := SplitLines(content);
    assert lines[0..] == lines;
    var index := 0;
    while index < |lines|
      invariant 0 <= index <= |lines|
      invariant ParseLines(lines, map[]) == ParseLines(lines[index..], values)
    {
      var line := lines[index];
      if !IsEntry(line) {
        SkipLine(lines, index, values);
        index := index + 1;
        continue;
      }
      ghost var start := index;
      var key := KeyOf(line);
      var value := RawValueOf(line);
      if OpensBlock(value) {
        index, value := CollectBlock(lines, index, value);
      }
      NoLines(RawValueOf(line), lines[start + 1..index + 1]);
      ReadEntry(lines, start, index, values);
      values := values[key := Finish(value)];
      index := index + 1;
    }
    assert lines[index..] == [];
    ParseNoLines(values);
  }

  lemma ParseNoLines(values: map<string, string>)
    ensures ParseLines([], values) == values
  {
  }

  /** The inner loop: `last` is the last line of the block opened at `start`, `text` the lines joined. */
  method CollectBlock(lines: seq<string>, start: nat, first: string) returns (last: nat, text: string)
    requires start < |lines|
    ensures start <= last < |lines| && last == start + BlockLength(lines[start + 1..])
    ensures text == Append(first, lines[start + 1..last + 1])
  {
    last, text := start, first;
    while last + 1 < |lines|
      invariant start <= last < |lines|
      invariant start + BlockLength(lines[start + 1..]) == last + BlockLength(lines[last + 1..])
      invariant text == Append(first, lines[start + 1..last + 1])
    {
      assert lines[last + 1..][1..] == lines[last + 2..];
      last := last + 1;
      assert lines[start + 1..last + 1] == lines[start + 1..last] + [lines[last]];
      AppendOneMore(first, lines[start + 1..last], lines[last]);
      text := text + "\n" + lines[last];
      if END <= lines[last] {
        break;
      }
    }
  }

  lemma {:induction false} AppendOneMore(value: string, lines: seq<string>, line: string)
    ensures Append(value, lines + [line]) == Append(value, lines) + "\n" + line
    decreases |lines|
  {
    if lines != [] {
      assert (lines + [line])[1..] == lines[1..] + [line];
      AppendOneMore(value + "\n" + lines[0], lines[1..], line);
    }
  }

  /** `loadWorkspaceEnv`: a variable that the process already has keeps its value. */
  method LoadWorkspaceEnv(file: Option<string>, processEnv: map<string, string>)
    returns (env: map<string, string>)
    ensures env == (if file.None? then processEnv else Parse(file.value) + processEnv)
  {
    hide Parse;
    env := processEnv;
    if file.None? {
      return;
    }
    var values := ParseWorkspaceEnv(file.value);
    var keys := values.Keys;
    while keys != {}
      invariant keys <= values.Keys
      invariant env == (values - keys) + processEnv
      decreases |keys|
    {
      var key :| key in keys;
      if key !in env {
        env := env[key := values[key]];
      }
      keys := keys - {key};
    }
  }

  // ---------- printing is undone by parsing ----------

  datatype Entry = Entry(key: string, value: string)

  /** Writes every line break as a backslash and an n. */
  function Escape(value: string): string {
    if value == "" then ""
    else (if value[0] == '\n' then ESCAPED_NEWLINE else [value[0]]) + Escape(value[1..])
  }

  function PrintEntry(e: Entry): string {
    e.key + "=" + "\"" + Escape(e.value) + "\""
  }

  function PrintLines(entries: seq<Entry>): (lines: seq<string>)
    ensures |lines| == |entries|
    ensures forall i :: 0 <= i < |lines| ==> lines[i] == PrintEntry(entries[i])
  {
    if entries == [] then [] else [PrintEntry(entries[0])] + PrintLines(entries[1..])
  }

  function JoinLines(lines: seq<string>): string {
    if lines == [] then ""
    else if |lines| == 1 then lines[0]
    else lines[0] + "\n" + JoinLines(lines[1..])
  }

  function Print(entries: seq<Entry>): string {
    JoinLines(PrintLines(entries))
  }

  /** A key that can be written before the `=`. */
  predicate GoodKey(key: string) {
    key != "" && key[0] != '#' && '=' !in key && '\n' !in key && Trim(key) == key
  }

  predicate WellFormed(entries: seq<Entry>) {
    && (forall i :: 0 <= i < |entries| ==> GoodKey(entries[i].key))
    && (forall i, j :: 0 <= i < j < |entries| ==> entries[i].key != entries[j].key)
  }

  /**
   Unescaping undoes escaping exactly for the values without a literal backslash-n;
   every such pair loses a character.
   */
  lemma {:induction false} UnescapeEscape(v: string)
    ensures Unescape(Escape(v)) == v <==> !HoldsPair(v)
    ensures |Unescape(Escape(v))| <= |v|
    ensures HoldsPair(v) ==> |Unescape(Escape(v))| < |v|
    decreases |v|
  {
    if v == "" {
    } else if StartsWithPair(v) {
      UnescapeEscape(v[2..]);
      assert v[1..][1..] == v[2..];
      assert Escape(v) == [v[0]] + ([v[1]] + Escape(v[2..]));
      assert Escape(v)[2..] == Escape(v[2..]);
    } else if v[0] == '\n' {
      UnescapeEscape(v[1..]);
      assert Escape(v)[2..] == Escape(v[1..]);
    } else {
      UnescapeEscape(v[1..]);
      assert Escape(v)[1..] == Escape(v[1..]);
      if |v| > 1 {
        assert Escape(v[1..])[0] == if v[1] == '\n' then '\\' else v[1];
      }
      assert !StartsWithPair(Escape(v));
      assert v == [v[0]] + v[1..];
    }
  }

  lemma {:induction false} EscapeHasNoBreak(v: string)
    ensures '\n' !in Escape(v)
  {
    if v != "" {
      EscapeHasNoBreak(v[1..]);
    }
  }

  lemma {:induction false} TrimEndKeeps(s: string)
    ensures TrimEnd(s) <= s
    ensures s != "" && !IsSpace(s[0]) ==> TrimEnd(s) != "" && TrimEnd(s)[0] == s[0]
    decreases |s|
  {
    if s != "" && IsSpace(s[|s| - 1]) {
      TrimEndKeeps(s[..|s| - 1]);
    }
  }

  /** A key equal to its own trimming does not start with white space. */
  lemma GoodKeyStart(key: string)
    requires GoodKey(key)
    ensures !IsSpace(key[0])
  {
    if IsSpace(key[0]) {
      TrimEndKeeps(TrimStart(key));
      TrimStartShortens(key[1..]);
    }
  }

  lemma {:induction false} TrimStartShortens(s: string)
    ensures |TrimStart(s)| <= |s|
  {
    if s != "" && IsSpace(s[0]) {
      TrimStartShortens(s[1..]);
    }
  }

  lemma {:induction false} FirstAt(s: string, c: char, k: nat)
    requires k < |s| && s[k] == c && c !in s[..k]
    ensures IndexOf(s, c) == k
  {
    if k > 0 {
      assert s[0] == s[..k][0] && s[1..][..k - 1] == s[..k][1..];
      FirstAt(s[1..], c, k - 1);
    }
  }

  /** A line of the form key=text is read as that key and that text. */
  lemma EntryLine(key: string, text: string)
    requires GoodKey(key)
    ensures var line := key + "=" + text;
      IsEntry(line) && KeyOf(line) == key && RawValueOf(line) == text
  {
    var line := key + "=" + text;
    GoodKeyStart(key);
    assert line[0] == key[0];
    TrimEndKeeps(line);
    assert line[|key|] == '=' && '=' !in line[..|key|] by {
      assert line[..|key|] == key;
    }
    FirstAt(line, '=', |key|);
    assert line[|key| + 1..] == text;
  }

  lemma StripQuoted(text: string)
    ensures StripMatchingQuotes("\"" + text + "\"") == text
  {
    var v := "\"" + text + "\"";
    assert v[1..|v| - 1] == text;
  }

  /** Reading a printed entry first and then the rest. */
  lemma ParsePrinted(e: Entry, post: seq<string>, values: map<string, string>)
    requires GoodKey(e.key)
    ensures ParseLines([PrintEntry(e)] + post, values)
         == ParseLines(post, values[e.key := Unescape(Escape(e.value))])
  {
    hide Includes, Unescape, IsEntry, KeyOf, RawValueOf;
    var text := "\"" + Escape(e.value) + "\"";
    EntryLine(e.key, text);
    assert PrintEntry(e) == e.key + "=" + text;
    StripQuoted(Escape(e.value));
    assert text[0] == '"' && BEGIN[0] == '-';
    var lines := [PrintEntry(e)] + post;
    assert lines[1..1] == [] && lines[1..] == post;
  }

  function Reread(entries: seq<Entry>): (r: seq<Entry>)
    ensures |r| == |entries|
    ensures forall i :: 0 <= i < |r| ==> r[i] == Entry(entries[i].key, Unescape(Escape(entries[i].value)))
  {
    if entries == [] then [] else [Entry(entries[0].key, Unescape(Escape(entries[0].value)))] + Reread(entries[1..])
  }

  function Updated(values: map<string, string>, entries: seq<Entry>): map<string, string>
    decreases |entries|
  {
    if entries == [] then values else Updated(values[entries[0].key := entries[0].value], entries[1..])
  }

  lemma {:induction false} ParsePrintedLines(entries: seq<Entry>, rest: seq<string>, values: map<string, string>)
    requires forall i :: 0 <= i < |entries| ==> GoodKey(entries[i].key)
    ensures ParseLines(PrintLines(entries) + rest, values) == ParseLines(rest, Updated(values, Reread(entries)))
    decreases |entries|
  {
    hide GoodKey, PrintEntry, Unescape, Escape;
    if entries == [] {
      assert [] + rest == rest;
    } else {
      var lines := PrintLines(entries[1..]) + rest;
      assert PrintLines(entries) + rest == [PrintEntry(entries[0])] + lines;
      ParsePrinted(entries[0], lines, values);
      ParsePrintedLines(entries[1..], rest, values[entries[0].key := Unescape(Escape(entries[0].value))]);
      assert Reread(entries)[1..] == Reread(entries[1..]);
    }
  }

  lemma {:induction false} UpdatedAt(values: map<string, string>, entries: seq<Entry>)
    requires forall i, j :: 0 <= i < j < |entries| ==> entries[i].key != entries[j].key
    ensures forall key :: key in Updated(values, entries) <==> key in values || exists i :: 0 <= i < |entries| && entries[i].key == key
    ensures forall i :: 0 <= i < |entries| ==> entries[i].key in Updated(values, entries) && Updated(values, entries)[entries[i].key] == entries[i].value
    ensures forall key :: key in values && (forall i :: 0 <= i < |entries| ==> entries[i].key != key) ==>
      key in Updated(values, entries) && Updated(values, entries)[key] == values[key]
    decreases |entries|
  {
    if entries != [] {
      UpdatedAt(values[entries[0].key := entries[0].value], entries[1..]);
      assert forall i :: 1 <= i < |entries| ==> entries[i] == entries[1..][i - 1];
    }
  }

  lemma IndexOfBreak(line: string, rest: string)
    requires '\n' !in line
    ensures IndexOf(line + "\n" + rest, '\n') == |line|
  {
    var s := line + "\n" + rest;
    assert s[|line|] == '\n' && s[..|line|] == line;
    FirstAt(s, '\n', |line|);
  }

  /** No line break inside and no carriage return at the end. */
  predicate Clean(line: string) {
    '\n' !in line && DropReturn(line) == line
  }

  predicate AllClean(lines: seq<string>) {
    forall i :: 0 <= i < |lines| ==> Clean(lines[i])
  }

  lemma SplitFirst(first: string, rest: string)
    requires '\n' !in first
    ensures SplitLines(first + "\n" + rest) == [DropReturn(first)] + SplitLines(rest)
  {
    var s := first + "\n" + rest;
    IndexOfBreak(first, rest);
    assert s[..|first|] == first && s[|first| + 1..] == rest;
  }

  lemma SplitLast(line: string)
    requires '\n' !in line
    ensures SplitLines(line) == [line]
  {
  }

  /** Splitting undoes joining for clean lines. */
  lemma {:induction false} SplitJoined(lines: seq<string>)
    requires lines != []
    requires AllClean(lines)
    ensures SplitLines(JoinLines(lines)) == lines
    decreases |lines|
  {
    hide SplitLines, DropReturn;
    if |lines| == 1 {
      SplitLast(lines[0]);
    } else {
      SplitFirst(lines[0], JoinLines(lines[1..]));
      SplitJoined(lines[1..]);
    }
  }

  /** The lines with a carriage return and a line feed between each two. */
  function JoinReturned(lines: seq<string>): string {
    if lines == [] then ""
    else if |lines| == 1 then lines[0]
    else lines[0] + "\r\n" + JoinReturned(lines[1..])
  }

  /** A file with carriage returns splits into the same lines. */
  lemma {:induction false} SplitReturned(lines: seq<string>)
    requires lines != []
    requires AllClean(lines)
    ensures SplitLines(JoinReturned(lines)) == lines
    decreases |lines|
  {
    hide SplitLines;
    if |lines| == 1 {
      SplitLast(lines[0]);
    } else {
      var first, rest := lines[0] + "\r", JoinReturned(lines[1..]);
      assert JoinReturned(lines) == first + "\n" + rest;
      assert '\n' !in lines[0];
      assert DropReturn(first) == lines[0];
      SplitFirst(first, rest);
      SplitReturned(lines[1..]);
    }
  }

  lemma PrintedIsALine(e: Entry)
    requires GoodKey(e.key)
    ensures Clean(PrintEntry(e))
  {
    EscapeHasNoBreak(e.value);
    assert PrintEntry(e)[|PrintEntry(e)| - 1] == '"';
  }

  lemma ParseNothing()
    ensures Parse("") == map[]
  {
    assert SplitLines("") == [""];
  }

  lemma ContentParses(before: seq<Entry>, lines: seq<string>)
    requires (before != [] || lines != []) && AllClean(lines) && forall i :: 0 <= i < |before| ==> GoodKey(before[i].key)
    ensures Parse(JoinLines(PrintLines(before) + lines)) == ParseLines(lines, Updated(map[], Reread(before)))
  {
    hide GoodKey, PrintEntry, Clean, SplitLines, ParseLines, JoinLines;
    var all := PrintLines(before) + lines;
    forall i | 0 <= i < |before|
      ensures Clean(PrintLines(before)[i])
    {
      PrintedIsALine(before[i]);
    }
    SplitJoined(all);
    ParsePrintedLines(before, lines, map[]);
  }

  lemma ParsePrint(entries: seq<Entry>)
    requires forall i :: 0 <= i < |entries| ==> GoodKey(entries[i].key)
    ensures Parse(Print(entries)) == Updated(map[], Reread(entries))
  {
    hide GoodKey, Parse, PrintLines, Updated, Reread, JoinLines, ParseLines, SplitLines;
    if entries == [] {
      NothingPrinted();
      ParseNothing();
    } else {
      ContentParses(entries, []);
      ParseNoLines(Updated(map[], Reread(entries)));
      assert PrintLines(entries) + [] == PrintLines(entries);
    }
  }

  lemma NothingPrinted()
    ensures Print([]) == "" && Updated(map[], Reread([])) == map[]
  {
  }

  /**
   Parsing the printed form of a well-formed map gives the map back exactly when no value holds
   a literal backslash-n: such a pair has no escaped form of its own and comes back as a line break.
   */
  lemma RoundTrip(entries: seq<Entry>)
    requires WellFormed(entries)
    ensures Parse(Print(entries)) == Updated(map[], entries)
      <==> forall i :: 0 <= i < |entries| ==> !HoldsPair(entries[i].value)
  {
    hide GoodKey, HoldsPair, Unescape, Escape, Parse, Print, Updated, Reread;
    ParsePrint(entries);
    var reread := Reread(entries);
    UpdatedAt(map[], entries);
    UpdatedAt(map[], reread);
    forall i | 0 <= i < |entries|
      ensures reread[i].value == entries[i].value <==> !HoldsPair(entries[i].value)
    {
      UnescapeEscape(entries[i].value);
    }
    if forall i :: 0 <= i < |entries| ==> !HoldsPair(entries[i].value) {
      assert reread == entries;
    }
  }

  // ---------- blocks ----------

  /** The block's lines joined by the two characters of an escaped line break. */
  function Flat(value: string, lines: seq<string>): string
    decreases |lines|
  {
    if lines == [] then value else Flat(value + ESCAPED_NEWLINE + lines[0], lines[1..])
  }

  lemma UnescapeOne(s: string)
    requires s != "" && !StartsWithPair(s)
    ensures Unescape(s) == [s[0]] + Unescape(s[1..])
  {
  }

  lemma UnescapePair(s: string)
    requires StartsWithPair(s)
    ensures Unescape(s) == "\n" + Unescape(s[2..])
  {
  }

  /** The first character that `a` unescapes to, and how much of `a` it takes, whatever follows. */
  lemma UnescapeStep(a: string, b: string) returns (k: nat, c: char)
    requires a != "" && b != "" && b[0] != 'n'
    ensures 0 < k <= |a|
    ensures Unescape(a) == [c] + Unescape(a[k..]) && Unescape(a + b) == [c] + Unescape(a[k..] + b)
  {
    hide Unescape;
    var s := a + b;
    assert s[0] == a[0] && s[1] == if |a| == 1 then b[0] else a[1];
    if StartsWithPair(a) {
      k, c := 2, '\n';
      UnescapePair(a);
      UnescapePair(s);
    } else {
      k, c := 1, a[0];
      UnescapeOne(a);
      UnescapeOne(s);
    }
    assert s[k..] == a[k..] + b;
  }

  lemma Associative(a: string, b: string, c: string)
    ensures a + (b + c) == (a + b) + c
  {
  }

  /** Text that does not start with an n cannot complete a pair begun before it. */
  lemma {:induction false} UnescapeAppend(a: string, b: string)
    requires b != "" && b[0] != 'n'
    ensures Unescape(a + b) == Unescape(a) + Unescape(b)
    decreases |a|
  {
    if a == "" {
      assert "" + b == b && "" + Unescape(b) == Unescape(b);
    } else {
      hide Unescape, StartsWithPair;
      var k, c := UnescapeStep(a, b);
      UnescapeAppend(a[k..], b);
      Associative([c], Unescape(a[k..]), Unescape(b));
    }
  }

  /** A line break and its escaped form read the same, also behind a backslash. */
  lemma UnescapeSplits(a: string, b: string)
    ensures Unescape(a + "\n" + b) == Unescape(a) + "\n" + Unescape(b)
    ensures Unescape(a + ESCAPED_NEWLINE + b) == Unescape(a) + "\n" + Unescape(b)
  {
    hide Unescape;
    UnescapeAppend(a, "\n" + b);
    UnescapeOne("\n" + b);
    assert ("\n" + b)[1..] == b && a + ("\n" + b) == a + "\n" + b;
    UnescapeAppend(a, ESCAPED_NEWLINE + b);
    UnescapePair(ESCAPED_NEWLINE + b);
    assert (ESCAPED_NEWLINE + b)[2..] == b && a + (ESCAPED_NEWLINE + b) == a + ESCAPED_NEWLINE + b;
  }

  lemma {:induction false} UnescapeFlat(raw: string, flat: string, lines: seq<string>)
    requires Unescape(raw) == Unescape(flat)
    ensures Unescape(Append(raw, lines)) == Unescape(Flat(flat, lines))
    decreases |lines|
  {
    if lines != [] {
      UnescapeSplits(raw, lines[0]);
      UnescapeSplits(flat, lines[0]);
      UnescapeFlat(raw + "\n" + lines[0], flat + ESCAPED_NEWLINE + lines[0], lines[1..]);
    }
  }

  lemma {:induction false} IncludesLater(a: string, part: string, b: string)
    ensures Includes(a + part + b, part)
    decreases |a|
  {
    var s := a + part + b;
    if a == "" {
      assert part <= s;
    } else {
      assert s[1..] == a[1..] + part + b;
      IncludesLater(a[1..], part, b);
    }
  }

  lemma {:induction false} FlatShape(value: string, lines: seq<string>) returns (before: string)
    ensures value <= Flat(value, lines)
    ensures lines != [] ==> Flat(value, lines) == before + lines[|lines| - 1]
    decreases |lines|
  {
    before := value + ESCAPED_NEWLINE;
    if |lines| == 1 {
      assert lines[1..] == [];
    } else if lines != [] {
      before := FlatShape(value + ESCAPED_NEWLINE + lines[0], lines[1..]);
    }
  }

  lemma {:induction false} AppendKeepsStart(value: string, lines: seq<string>)
    ensures value <= Append(value, lines)
    decreases |lines|
  {
    if lines != [] {
      AppendKeepsStart(value + "\n" + lines[0], lines[1..]);
    }
  }

  lemma {:induction false} BlockLengthIs(body: seq<string>, end: string, post: seq<string>)
    requires forall i :: 0 <= i < |body| ==> !(END <= body[i])
    requires END <= end
    ensures BlockLength(body + [end] + post) == |body| + 1
    decreases |body|
  {
    var lines := body + [end] + post;
    if body != [] {
      assert lines[1..] == body[1..] + [end] + post;
      BlockLengthIs(body[1..], end, post);
    }
  }

  /** A value that starts with `-` has no quotes to strip. */
  lemma NoQuotes(begin: string, value: string)
    requires BEGIN <= begin && begin <= value
    ensures Finish(value) == Unescape(value)
  {
    assert value[0] == begin[0] == BEGIN[0];
  }

  /**
   A raw block of lines, its one-line form and its quoted one-line form read the same, whatever
   the lines of the block contain: none of them becomes an entry, and reading goes on behind the END line.
   */
  lemma BlockForms(key: string, begin: string, body: seq<string>, end: string,
                   post: seq<string>, values: map<string, string>)
    requires GoodKey(key) && OpensBlock(begin) && END <= end
    requires forall i :: 0 <= i < |body| ==> !(END <= body[i])
    ensures var flat := Flat(begin, body + [end]);
      var read := ParseLines(post, values[key := Unescape(flat)]);
      && ParseLines([key + "=" + begin] + body + [end] + post, values) == read
      && ParseLines([key + "=" + flat] + post, values) == read
      && ParseLines([key + "=" + ("\"" + flat + "\"")] + post, values) == read
  {
    hide GoodKey, IsEntry, KeyOf, RawValueOf, Unescape, Includes, BlockLength, Append, Flat;
    var flat := Flat(begin, body + [end]);
    RawBlock(key, begin, body, end, post, values);
    OneLine(key, begin, body, end);
    SingleLine(key, flat, flat, post, values);
    var quoted := "\"" + flat + "\"";
    StripQuoted(flat);
    assert quoted[0] == '"' && BEGIN[0] == '-';
    SingleLine(key, quoted, flat, post, values);
  }

  /** Nothing but white space, a comment, or no name in front of an equals sign. */
  predicate Ignorable(line: string) {
    || (forall c | c in line :: IsSpace(c))
    || (exists i | 0 <= i < |line| :: line[i] == '#' && forall c | c in line[..i] :: IsSpace(c))
    || '=' !in line || line[0] == '='
  }

  lemma {:induction false} TrimStartSkips(line: string, i: nat)
    requires i <= |line| && (forall c | c in line[..i] :: IsSpace(c)) && (i < |line| ==> !IsSpace(line[i]))
    ensures TrimStart(line) == line[i..]
    decreases i
  {
    if i > 0 {
      assert line[0] in line[..i];
      assert forall c | c in line[1..][..i - 1] :: c in line[..i];
      TrimStartSkips(line[1..], i - 1);
      assert line[1..][i - 1..] == line[i..];
    }
  }

  lemma {:induction false} TrimEndKeepsFirst(s: string)
    requires s != "" && !IsSpace(s[0])
    ensures TrimEnd(s) != "" && TrimEnd(s)[0] == s[0]
    decreases |s|
  {
    if IsSpace(s[|s| - 1]) {
      TrimEndKeepsFirst(s[..|s| - 1]);
    }
  }

  lemma IgnorableIsNoEntry(line: string)
    requires Ignorable(line)
    ensures !IsEntry(line)
  {
    if forall c | c in line :: IsSpace(c) {
      TrimStartSkips(line, |line|);
    } else if exists i | 0 <= i < |line| :: line[i] == '#' && forall c | c in line[..i] :: IsSpace(c) {
      var i :| 0 <= i < |line| && line[i] == '#' && forall c | c in line[..i] :: IsSpace(c);
      TrimStartSkips(line, i);
      TrimEndKeepsFirst(line[i..]);
    } else {
      assert IndexOf(line, '=') == |line| || IndexOf(line, '=') == 0;
    }
  }

  lemma {:induction false} TrimEndSkips(s: string, pad: string)
    requires forall c | c in pad :: IsSpace(c)
    requires s == "" || !IsSpace(s[|s| - 1])
    ensures TrimEnd(s + pad) == s
    decreases |pad|
  {
    if pad == "" {
      assert s + pad == s;
    } else {
      assert IsSpace(pad[|pad| - 1]) by {
        assert pad[|pad| - 1] in pad;
      }
      assert (s + pad)[..|s + pad| - 1] == s + pad[..|pad| - 1];
      TrimEndSkips(s, pad[..|pad| - 1]);
    }
  }

  lemma TrimShrinks(s: string)
    ensures |TrimEnd(s)| <= |s| && |TrimStart(s)| <= |s|
    ensures s != "" && IsSpace(s[0]) ==> |TrimStart(s)| < |s|
    ensures s != "" && IsSpace(s[|s| - 1]) ==> |TrimEnd(s)| < |s|
    decreases |s|
  {
    if s != "" {
      TrimShrinks(s[1..]);
      TrimShrinks(s[..|s| - 1]);
    }
  }

  /** A trimmed text neither begins nor ends with white space. */
  lemma TrimmedEnds(key: string)
    requires key != "" && Trim(key) == key
    ensures !IsSpace(key[0]) && !IsSpace(key[|key| - 1])
  {
    TrimShrinks(key);
    TrimShrinks(TrimStart(key));
  }

  /** White space around a key does not belong to it; that around a value does. */
  lemma PaddedKey(key: string, left: string, right: string, value: string)
    requires GoodKey(key) && '=' !in left && '=' !in right
    requires (forall c | c in left :: IsSpace(c)) && (forall c | c in right :: IsSpace(c))
    ensures var line := left + key + right + "=" + value;
      IsEntry(line) && KeyOf(line) == key && RawValueOf(line) == value
  {
    hide GoodKey;
    var line, name := left + key + right + "=" + value, left + key + right;
    GoodKeyIs(key);
    TrimmedEnds(key);
    FirstAt(line, '=', |name|);
    assert line[..|name|] == name;
    assert name[..|left|] == left && name[|left|..] == key + right;
    TrimStartSkips(name, |left|);
    TrimEndSkips(key, right);
    assert line[..|left|] == left && line[|left|] == key[0];
    TrimStartSkips(line, |left|);
    TrimEndKeepsFirst(line[|left|..]);
  }

  lemma GoodKeyIs(key: string)
    requires GoodKey(key)
    ensures key != "" && key[0] != '#' && '=' !in key && Trim(key) == key
  {
  }

  /** A blank line, a comment and a line without a name change nothing, wherever an entry could stand. */
  lemma IgnoredLine(line: string, post: seq<string>, values: map<string, string>)
    requires Ignorable(line)
    ensures ParseLines([line] + post, values) == ParseLines(post, values)
  {
    IgnorableIsNoEntry(line);
    hide IsEntry;
    assert ([line] + post)[1..] == post;
  }

  /**
   An entry on one line: its key without the white space around it, its value as it stands, white space included,
   less one pair of matching quotes of either kind; a quote at one end only stays.
   */
  lemma ValueOnOneLine(left: string, key: string, right: string, value: string, post: seq<string>,
                       values: map<string, string>)
    requires GoodKey(key) && !OpensBlock(value) && '=' !in left && '=' !in right
    requires (forall c | c in left :: IsSpace(c)) && (forall c | c in right :: IsSpace(c))
    ensures var quoted := |value| >= 2 && value[0] == value[|value| - 1] && (value[0] == '\'' || value[0] == '"');
      ParseLines([left + key + right + "=" + value] + post, values)
      == ParseLines(post, values[key := Unescape(if quoted then value[1..|value| - 1] else value)])
  {
    hide GoodKey, Unescape, OpensBlock, IsEntry, KeyOf, RawValueOf;
    PaddedKey(key, left, right, value);
    var lines := [left + key + right + "=" + value] + post;
    assert lines[1..1] == [] && lines[1..] == post;
  }

  /**
   In the content of a file: behind printed entries, and whatever lines follow, the three forms of a block read
   the same.
   */
  lemma BlockFormsInAFile(before: seq<Entry>, key: string, begin: string, body: seq<string>, end: string,
                          post: seq<string>)
    requires GoodKey(key) && OpensBlock(begin) && END <= end
    requires forall i :: 0 <= i < |before| ==> GoodKey(before[i].key)
    requires forall i :: 0 <= i < |body| ==> !(END <= body[i])
    requires Clean(begin) && AllClean(body) && Clean(end) && AllClean(post)
    ensures var flat := Flat(begin, body + [end]);
      var read := ParseLines(post, Updated(map[], Reread(before))[key := Unescape(flat)]);
      && Parse(JoinLines(PrintLines(before) + ([key + "=" + begin] + body + [end] + post))) == read
      && Parse(JoinLines(PrintLines(before) + ([key + "=" + flat] + post))) == read
      && Parse(JoinLines(PrintLines(before) + ([key + "=" + ("\"" + flat + "\"")] + post))) == read
  {
    hide *;
    var flat := Flat(begin, body + [end]);
    BlockForms(key, begin, body, end, post, Updated(map[], Reread(before)));
    FormsAreClean(key, begin, body, end, post);
    ContentParses(before, [key + "=" + begin] + body + [end] + post);
    ContentParses(before, [key + "=" + flat] + post);
    ContentParses(before, [key + "=" + ("\"" + flat + "\"")] + post);
  }

  lemma FormsAreClean(key: string, begin: string, body: seq<string>, end: string, post: seq<string>)
    requires GoodKey(key) && Clean(begin) && AllClean(body) && Clean(end) && AllClean(post)
    ensures var flat := Flat(begin, body + [end]);
      && AllClean([key + "=" + begin] + body + [end] + post)
      && AllClean([key + "=" + flat] + post)
      && AllClean([key + "=" + ("\"" + flat + "\"")] + post)
  {
    hide GoodKey, Clean, Flat;
    var flat := Flat(begin, body + [end]);
    FlatIsClean(begin, body + [end]);
    EntryIsClean(key, begin);
    EntryIsClean(key, flat);
    EntryIsClean(key, "\"" + flat + "\"");
  }

  lemma EntryIsClean(key: string, value: string)
    requires GoodKey(key) && (Clean(value) || (value != "" && '\n' !in value && value[|value| - 1] == '"'))
    ensures Clean(key + "=" + value)
  {
    var line := key + "=" + value;
    assert value != "" ==> line[|line| - 1] == value[|value| - 1];
  }

  lemma {:induction false} FlatIsClean(value: string, lines: seq<string>)
    requires Clean(value) && AllClean(lines)
    ensures Clean(Flat(value, lines)) && '\n' !in "\"" + Flat(value, lines) + "\""
    decreases |lines|
  {
    if lines != [] {
      var next := value + ESCAPED_NEWLINE + lines[0];
      assert Clean(lines[0]);
      assert lines[0] != "" ==> next[|next| - 1] == lines[0][|lines[0]| - 1];
      FlatIsClean(next, lines[1..]);
    }
  }

  lemma SingleLine(key: string, value: string, stripped: string, post: seq<string>, values: map<string, string>)
    requires GoodKey(key) && !OpensBlock(value) && Finish(value) == Unescape(stripped)
    ensures ParseLines([key + "=" + value] + post, values) == ParseLines(post, values[key := Unescape(stripped)])
  {
    hide GoodKey, IsEntry, KeyOf, RawValueOf, Unescape, OpensBlock, Finish;
    EntryLine(key, value);
    var lines := [key + "=" + value] + post;
    assert lines[1..1] == [] && lines[1..] == post;
  }

  lemma OneLine(key: string, begin: string, body: seq<string>, end: string)
    requires OpensBlock(begin) && END <= end
    ensures var flat := Flat(begin, body + [end]);
      !OpensBlock(flat) && Finish(flat) == Unescape(flat)
  {
    hide Unescape;
    var flat := Flat(begin, body + [end]);
    var a := FlatShape(begin, body + [end]);
    assert (body + [end])[|body|] == end;
    assert flat == a + END + end[|END|..];
    IncludesLater(a, END, end[|END|..]);
    NoQuotes(begin, flat);
  }

  lemma RawBlock(key: string, begin: string, body: seq<string>, end: string,
                 post: seq<string>, values: map<string, string>)
    requires GoodKey(key) && OpensBlock(begin) && END <= end
    requires forall i :: 0 <= i < |body| ==> !(END <= body[i])
    ensures ParseLines([key + "=" + begin] + body + [end] + post, values)
         == ParseLines(post, values[key := Unescape(Flat(begin, body + [end]))])
  {
    hide GoodKey, IsEntry, KeyOf, RawValueOf, Unescape, Includes;
    EntryLine(key, begin);
    var lines := [key + "=" + begin] + body + [end] + post;
    assert lines[1..] == body + [end] + post;
    BlockLengthIs(body, end, post);
    var n := |body| + 1;
    assert lines[1..n + 1] == body + [end] && lines[n + 1..] == post;
    AppendKeepsStart(begin, body + [end]);
    NoQuotes(begin, Append(begin, body + [end]));
    UnescapeFlat(begin, begin, body + [end]);
  }

  /** A block without an END line takes every remaining line of the file into its value. */
  lemma OpenBlockTakesAll(key: string, begin: string, body: seq<string>, values: map<string, string>)
    requires GoodKey(key) && OpensBlock(begin)
    requires forall i :: 0 <= i < |body| ==> !(END <= body[i])
    ensures ParseLines([key + "=" + begin] + body, values) == values[key := Unescape(Flat(begin, body))]
  {
    hide GoodKey, IsEntry, KeyOf, RawValueOf, Unescape, Includes;
    EntryLine(key, begin);
    var lines := [key + "=" + begin] + body;
    assert lines[1..] == body;
    OpenLength(body);
    assert lines[1..|body| + 1] == body && lines[|body| + 1..] == [];
    AppendKeepsStart(begin, body);
    NoQuotes(begin, Append(begin, body));
    UnescapeFlat(begin, begin, body);
  }

  lemma {:induction false} OpenLength(body: seq<string>)
    requires forall i :: 0 <= i < |body| ==> !(END <= body[i])
    ensures BlockLength(body) == |body|
    decreases |body|
  {
    if body != [] {
      OpenLength(body[1..]);
    }
  }
}
