/**
 * The Procfile parser and printer (src/procfile.rs).
 *
 * `parse` splits its input on '\n', matches each line against
 * `^([A-Za-z0-9_]+):\s*(.+)$`, trims the second capture and splits it on
 * single ' ' characters into a command and its options. Lines that do not
 * match are skipped. `Display` prints a process as its command, a space and
 * its options joined by spaces.
 *
 * The regular expression is written out by hand below. Whitespace, for both
 * `\s` and `trim`, is the ASCII set: tab, line feed, vertical tab, form feed,
 * carriage return and space.
 */
module Procfile {
  import opened Types

  /** ASCII whitespace: '\t', '\n', '\x0B', '\x0C', '\r' and ' '. */
  predicate IsSpace(c: char) {
    c == ' ' || '\t' <= c <= '\r'
  }

  /** The character class `[A-Za-z0-9_]`. */
  predicate IsNameChar(c: char) {
    'A' <= c <= 'Z' || 'a' <= c <= 'z' || '0' <= c <= '9' || c == '_'
  }

  predicate IsName(s: string) {
    s != [] && forall i :: 0 <= i < |s| ==> IsNameChar(s[i])
  }

  predicate AllSpace(s: string) {
    forall i :: 0 <= i < |s| ==> IsSpace(s[i])
  }

  // ---------------------------------------------------------------------
  // Scanning helpers

  /** Length of the longest prefix of name characters. */
  function NameLength(s: string): (k: nat)
    ensures k <= |s|
  {
    if s == [] || !IsNameChar(s[0]) then 0 else 1 + NameLength(s[1..])
  }

  /** Length of the longest prefix of whitespace. */
  function SpaceLength(s: string): (k: nat)
    ensures k <= |s|
  {
    if s == [] || !IsSpace(s[0]) then 0 else 1 + SpaceLength(s[1..])
  }

  /** Length of the longest suffix of whitespace. */
  function EndSpaceLength(s: string): (k: nat)
    ensures k <= |s|
  {
    if s == [] || !IsSpace(s[|s| - 1]) then 0 else 1 + EndSpaceLength(s[..|s| - 1])
  }

  /** `str::trim`: drop leading and trailing whitespace. */
  function Trim(s: string): (t: string)
  {
    var u := s[SpaceLength(s)..];
    u[..|u| - EndSpaceLength(u)]
  }

  /** `str::split(sep)`: the pieces between separators; never empty ("" gives [""]). */
  function Split(s: string, sep: char): (parts: seq<string>)
    ensures |parts| >= 1
  {
    if s == [] then [[]]
    else
      var rest := Split(s[1..], sep);
      if s[0] == sep then [[]] + rest
      else [[s[0]] + rest[0]] + rest[1..]
  }

  /** `[&str]::join(sep)`. */
  function Join(parts: seq<string>, sep: string): string
  {
    if parts == [] then []
    else if |parts| == 1 then parts[0]
    else parts[0] + sep + Join(parts[1..], sep)
  }

  // ---------------------------------------------------------------------
  // The line pattern

  /** The two capture groups of the line pattern. */
  datatype Captures = Captures(name: string, details: string)

  /**
   * Reference definition of a matching line: one or more name characters from
   * column 0, a colon, and at least one more character.
   */
  ghost predicate IsProcessLine(line: string) {
    exists k :: 0 < k < |line| - 1 && line[k] == ':' && IsName(line[..k])
  }

  /** `details` is what is left of `rest` after some whitespace. */
  ghost predicate AfterSpace(rest: string, details: string) {
    |details| <= |rest| &&
    details == rest[|rest| - |details|..] &&
    AllSpace(rest[..|rest| - |details|])
  }

  /**
   * `\s*(.+)$` on the text after the colon: `\s*` is greedy but gives back
   * one character when the text is all whitespace, because `(.+)` needs at
   * least one.
   */
  function Details(rest: string): (details: string)
    requires rest != []
  {
    var w := SpaceLength(rest);
    if w == |rest| then rest[|rest| - 1..] else rest[w..]
  }

  /**
   * `REGEX.captures(line)` on one line of the split input. The lines never
   * hold '\n', so `.` matches every character that is left. The name is the
   * maximal run of name characters and must be followed by ':' and at least
   * one more character.
   */
  function MatchLine(line: string): (m: Option<Captures>)
  {
    var k := NameLength(line);
    if k == 0 || k + 1 >= |line| || line[k] != ':' then None
    else Some(Captures(line[..k], Details(line[k + 1..])))
  }

  /**
   * The second capture is what is left after some whitespace; it is never
   * empty, and starts with a non-space unless it is one character.
   */
  lemma {:induction false} DetailsShape(rest: string)
    requires rest != []
    ensures var d := Details(rest);
      d != [] && AfterSpace(rest, d) && (|d| == 1 || !IsSpace(d[0]))
  {
    var w := SpaceLength(rest);
    SpaceLengthSpec(rest);
    if w == |rest| {
      assert rest[..|rest| - 1] == rest[..w][..|rest| - 1];
    }
  }

  /**
   * The captures of a match: the name is the text before the colon, and the
   * details are the rest of the line as `DetailsShape` describes.
   */
  lemma {:induction false} MatchLineShape(line: string)
    requires MatchLine(line).Some?
    ensures var c := MatchLine(line).value; var k := |c.name|;
      k + 1 < |line| && IsName(c.name) && line[..k] == c.name && line[k] == ':' &&
      c.details == Details(line[k + 1..])
  {
    var k := NameLength(line);
    NameLengthSpec(line);
    assert IsName(line[..k]) by {
      forall i | 0 <= i < k ensures IsNameChar(line[..k][i]) { assert line[..k][i] == line[i]; }
    }
  }

  // ---------------------------------------------------------------------
  // Processes

  /** A Procfile entry: name, command and options. */
  datatype Process = Process(name: string, command: string, options: seq<string>)

  /** One entry from a match: the trimmed second capture, split on ' '. */
  function EntryOf(c: Captures): Process
  {
    var details := Split(Trim(c.details), ' ');
    Process(c.name, details[0], details[1..])
  }

  /** What one line contributes: its entry when it matches, nothing otherwise. */
  function LineEntries(line: string): seq<Process>
  {
    match MatchLine(line)
    case Some(c) => [EntryOf(c)]
    case None => []
  }

  /** `f` applied to each element in order, the results concatenated. */
  function FlatMap<A, B>(f: A -> seq<B>, xs: seq<A>): seq<B>
  {
    if xs == [] then [] else FlatMap(f, xs[..|xs| - 1]) + f(xs[|xs| - 1])
  }

  /** The entries of the matching lines, in line order. */
  function EntriesOf(lines: seq<string>): seq<Process>
  {
    FlatMap(LineEntries, lines)
  }

  /** What `parse` returns for `content`. */
  function Entries(content: string): seq<Process>
  {
    EntriesOf(Split(content, '\n'))
  }

  /** The error type of `parse`; no path of the function produces one. */
  datatype ParseError = ParseError

  /** `parse`: walk the lines, pushing one entry per matching line. */
  method Parse(content: string) returns (r: Result<seq<Process>, ParseError>)
    ensures r.Ok?
    ensures r.value == Entries(content)
  {
    var entries: seq<Process> := [];
    var lines := Split(content, '\n');
    for i := 0 to |lines|
      invariant entries == EntriesOf(lines[..i])
    {
      assert lines[..i + 1][..i] == lines[..i];
      match MatchLine(lines[i]) {
        case Some(captures) =>
          var details := Split(Trim(captures.details), ' ');
          entries := entries + [Process(captures.name, details[0], details[1..])];
        case None =>
      }
    }
    assert lines[..|lines|] == lines;
    return Ok(entries);
  }

  /** `Display for Process`: `"{command} {options joined by ' '}"`, as written. */
  function Display(p: Process): string
  {
    p.command + " " + Join(p.options, " ")
  }

  /** What `Display` evidently means to print: command and options joined by ' '. */
  function DisplayIntended(p: Process): string
  {
    Join([p.command] + p.options, " ")
  }

  // ---------------------------------------------------------------------
  // Lemmas: scanning

  /** `NameLength` is the length of the maximal run of name characters. */
  lemma {:induction false} NameLengthSpec(s: string)
    ensures var k := NameLength(s);
      (forall i :: 0 <= i < k ==> IsNameChar(s[i])) && (k < |s| ==> !IsNameChar(s[k]))
  {
    if s != [] && IsNameChar(s[0]) {
      NameLengthSpec(s[1..]);
      var k := NameLength(s);
      forall i | 0 < i < k ensures IsNameChar(s[i]) { assert s[i] == s[1..][i - 1]; }
      if k < |s| { assert s[k] == s[1..][k - 1]; }
    }
  }

  /** `NameLength` is determined by a run of name characters that is then broken. */
  lemma {:induction false} NameLengthIs(s: string, k: nat)
    requires k <= |s| && forall i :: 0 <= i < k ==> IsNameChar(s[i])
    requires k < |s| ==> !IsNameChar(s[k])
    ensures NameLength(s) == k
  {
    if k > 0 {
      forall i | 0 <= i < k - 1 ensures IsNameChar(s[1..][i]) { assert s[1..][i] == s[i + 1]; }
      if k - 1 < |s[1..]| { assert s[1..][k - 1] == s[k]; }
      NameLengthIs(s[1..], k - 1);
    }
  }

  /** `SpaceLength` is the length of the maximal run of leading whitespace. */
  lemma {:induction false} SpaceLengthSpec(s: string)
    ensures var k := SpaceLength(s);
      AllSpace(s[..k]) && (k < |s| ==> !IsSpace(s[k]))
  {
    if s != [] && IsSpace(s[0]) {
      SpaceLengthSpec(s[1..]);
      var k := SpaceLength(s);
      forall i | 0 <= i < k ensures IsSpace(s[..k][i]) {
        if i > 0 { assert s[..k][i] == s[1..][..k - 1][i - 1]; }
      }
      if k < |s| { assert s[k] == s[1..][k - 1]; }
    }
  }

  /** `EndSpaceLength` is the length of the maximal run of trailing whitespace. */
  lemma {:induction false} EndSpaceLengthSpec(s: string)
    ensures var k := EndSpaceLength(s);
      AllSpace(s[|s| - k..]) && (k < |s| ==> !IsSpace(s[|s| - 1 - k]))
  {
    if s != [] && IsSpace(s[|s| - 1]) {
      var s' := s[..|s| - 1];
      EndSpaceLengthSpec(s');
      var k := EndSpaceLength(s);
      var tail, tail' := s[|s| - k..], s'[|s'| - (k - 1)..];
      forall i | 0 <= i < k ensures IsSpace(tail[i]) {
        if i < k - 1 { assert tail[i] == tail'[i]; }
      }
      if k < |s| { assert s[|s| - 1 - k] == s'[|s'| - 1 - (k - 1)]; }
    }
  }

  /** The trim of a text neither starts nor ends with whitespace. */
  lemma {:induction false} TrimSpec(s: string)
    ensures var t := Trim(s); t == [] || (!IsSpace(t[0]) && !IsSpace(t[|t| - 1]))
  {
    var u := s[SpaceLength(s)..];
    SpaceLengthSpec(s);
    EndSpaceLengthSpec(u);
    var t := Trim(s);
    if t != [] {
      assert t[0] == s[SpaceLength(s)];
      assert t[|t| - 1] == u[|u| - 1 - EndSpaceLength(u)];
    }
  }

  /** No piece of a split holds the separator. */
  lemma {:induction false} SplitPiecesFree(s: string, sep: char)
    ensures forall i :: 0 <= i < |Split(s, sep)| ==> sep !in Split(s, sep)[i]
  {
    if s != [] {
      SplitPiecesFree(s[1..], sep);
      var rest := Split(s[1..], sep);
      var parts := Split(s, sep);
      forall i | 0 <= i < |parts| ensures sep !in parts[i] {
        if s[0] == sep {
          if i > 0 { assert parts[i] == rest[i - 1]; }
        } else if i == 0 {
          assert parts[0] == [s[0]] + rest[0];
          assert sep !in rest[0];
        } else {
          assert parts[i] == rest[i];
        }
      }
    }
  }

  // ---------------------------------------------------------------------
  // Lemmas: trimming

  lemma {:induction false} SpaceLengthOfAllSpace(s: string)
    requires AllSpace(s)
    ensures SpaceLength(s) == |s|
  {
    if s != [] {
      assert AllSpace(s[1..]) by {
        forall i | 0 <= i < |s[1..]| ensures IsSpace(s[1..][i]) { assert s[1..][i] == s[i + 1]; }
      }
      SpaceLengthOfAllSpace(s[1..]);
    }
  }

  /** Dropping leading whitespace does not change the trimmed text. */
  lemma {:induction false} TrimSkipsLeadingSpace(s: string, k: nat)
    requires k <= |s| && AllSpace(s[..k])
    ensures Trim(s[k..]) == Trim(s)
  {
    if k > 0 {
      assert IsSpace(s[0]);
      var head, head' := s[..k], s[1..][..k - 1];
      assert AllSpace(head') by {
        forall i | 0 <= i < k - 1 ensures IsSpace(head'[i]) {
          assert head'[i] == head[i + 1];
        }
      }
      TrimSkipsLeadingSpace(s[1..], k - 1);
      assert s[1..][k - 1..] == s[k..];
      assert s[1..][SpaceLength(s[1..])..] == s[SpaceLength(s)..];
    }
  }

  /** Whitespace alone trims to nothing. */
  lemma {:induction false} TrimAllSpace(s: string)
    requires AllSpace(s)
    ensures Trim(s) == []
  {
    SpaceLengthOfAllSpace(s);
  }

  /** Text that neither starts nor ends with whitespace is its own trim. */
  lemma {:induction false} TrimTrimmed(s: string)
    requires s == [] || (!IsSpace(s[0]) && !IsSpace(s[|s| - 1]))
    ensures Trim(s) == s
  {
    assert s[0..] == s;
  }

  /** Whitespace appended after a non-space is exactly the trailing run. */
  lemma {:induction false} EndSpaceLengthAfter(s: string, tail: string)
    requires s != [] && !IsSpace(s[|s| - 1]) && AllSpace(tail)
    ensures EndSpaceLength(s + tail) == |tail|
    decreases |tail|
  {
    var u := s + tail;
    if tail == [] {
      assert u == s;
    } else {
      var tail' := tail[..|tail| - 1];
      assert u[..|u| - 1] == s + tail';
      assert u[|u| - 1] == tail[|tail| - 1];
      assert AllSpace(tail') by {
        forall i | 0 <= i < |tail'| ensures IsSpace(tail'[i]) { assert tail'[i] == tail[i]; }
      }
      EndSpaceLengthAfter(s, tail');
    }
  }

  /** Trailing whitespace after untrimmable text is dropped by `trim`. */
  lemma {:induction false} TrimDropsTrailingSpace(s: string, tail: string)
    requires s != [] && !IsSpace(s[0]) && !IsSpace(s[|s| - 1]) && AllSpace(tail)
    ensures Trim(s + tail) == s
  {
    var u := s + tail;
    assert SpaceLength(u) == 0;
    assert u[0..] == u;
    EndSpaceLengthAfter(s, tail);
    assert u[..|u| - |tail|] == s;
  }

  // ---------------------------------------------------------------------
  // Lemmas: splitting and joining

  /** A piece with no separator splits into itself. */
  lemma {:induction false} SplitWithoutSep(s: string, sep: char)
    requires sep !in s
    ensures Split(s, sep) == [s]
  {
    if s != [] {
      SplitWithoutSep(s[1..], sep);
      assert [s[0]] + s[1..] == s;
    }
  }

  /** Splitting distributes over a separator: the pieces of `a`, then those of `b`. */
  lemma {:induction false} SplitConcat(a: string, b: string, sep: char)
    ensures Split(a + [sep] + b, sep) == Split(a, sep) + Split(b, sep)
  {
    var s := a + [sep] + b;
    if a == [] {
      assert s[1..] == b;
    } else {
      assert s[1..] == a[1..] + [sep] + b;
      SplitConcat(a[1..], b, sep);
    }
  }

  /** Joining the pieces with the separator gives back the text. */
  lemma {:induction false} JoinSplit(s: string, sep: char)
    ensures Join(Split(s, sep), [sep]) == s
  {
    if s != [] {
      var rest := Split(s[1..], sep);
      JoinSplit(s[1..], sep);
      if s[0] == sep {
        assert ([[]] + rest)[1..] == rest;
      } else {
        var parts := [[s[0]] + rest[0]] + rest[1..];
        if |rest| > 1 {
          assert parts[1..] == rest[1..];
        }
      }
    }
  }

  /** Splitting joined pieces gives back the pieces, when none holds the separator. */
  lemma {:induction false} SplitJoin(parts: seq<string>, sep: char)
    requires |parts| >= 1
    requires forall i :: 0 <= i < |parts| ==> sep !in parts[i]
    ensures Split(Join(parts, [sep]), sep) == parts
  {
    if |parts| == 1 {
      SplitWithoutSep(parts[0], sep);
    } else {
      SplitJoin(parts[1..], sep);
      SplitConcat(parts[0], Join(parts[1..], [sep]), sep);
      SplitWithoutSep(parts[0], sep);
    }
  }

  // ---------------------------------------------------------------------
  // Lemmas: the line pattern

  /** A line with a name at column 0 and a colon after it matches there. */
  lemma {:induction false} MatchLineAt(line: string, k: nat)
    requires 0 < k < |line| - 1 && line[k] == ':' && IsName(line[..k])
    ensures MatchLine(line) == Some(Captures(line[..k], Details(line[k + 1..])))
  {
    forall i | 0 <= i < k ensures IsNameChar(line[i]) { assert line[..k][i] == line[i]; }
    NameLengthIs(line, k);
  }

  /** After exactly one space, the second capture is the rest of the line. */
  lemma {:induction false} DetailsAfterOneSpace(text: string)
    requires text != [] && !IsSpace(text[0])
    ensures Details(" " + text) == text
  {
    var rest := " " + text;
    assert rest[1..] == text;
    assert SpaceLength(rest[1..]) == 0;
  }

  /** A line matches exactly when it is a process line. */
  lemma {:induction false} MatchLineIff(line: string)
    ensures MatchLine(line).Some? <==> IsProcessLine(line)
  {
    var n := NameLength(line);
    if MatchLine(line).Some? {
      MatchLineShape(line);
      assert 0 < n < |line| - 1 && line[n] == ':' && IsName(line[..n]);
    }
    if IsProcessLine(line) {
      var k :| 0 < k < |line| - 1 && line[k] == ':' && IsName(line[..k]);
      MatchLineAt(line, k);
    }
  }

  /** What the greedy `\s*` leaves has the same trim as the whole remainder. */
  lemma {:induction false} TrimDetails(rest: string)
    requires rest != []
    ensures Trim(Details(rest)) == Trim(rest)
  {
    var details := Details(rest);
    DetailsShape(rest);
    var w := |rest| - |details|;
    if |details| == 1 && IsSpace(details[0]) {
      assert AllSpace(rest) by {
        forall i | 0 <= i < |rest| ensures IsSpace(rest[i]) {
          if i < w { assert rest[..w][i] == rest[i]; } else { assert rest[i] == details[0]; }
        }
      }
      TrimAllSpace(rest);
      TrimAllSpace(details);
    } else {
      TrimSkipsLeadingSpace(rest, w);
    }
  }

  // ---------------------------------------------------------------------
  // Lemmas: parsing

  lemma {:induction false} FlatMapAppend<A, B>(f: A -> seq<B>, a: seq<A>, b: seq<A>)
    ensures FlatMap(f, a + b) == FlatMap(f, a) + FlatMap(f, b)
    decreases |b|
  {
    if b == [] {
      assert a + b == a;
    } else {
      var b' := b[..|b| - 1];
      assert (a + b)[..|a + b| - 1] == a + b';
      FlatMapAppend(f, a, b');
    }
  }

  /** Entries come in input order: the entries of `a`, then those of `b`. */
  lemma {:induction false} EntriesConcat(a: string, b: string)
    ensures Entries(a + "\n" + b) == Entries(a) + Entries(b)
  {
    SplitConcat(a, b, '\n');
    FlatMapAppend(LineEntries, Split(a, '\n'), Split(b, '\n'));
  }

  /** A text without '\n' is one line, and its entries are that line's. */
  lemma {:induction false} EntriesOfOneLine(line: string)
    requires '\n' !in line
    ensures Entries(line) == LineEntries(line)
  {
    SplitWithoutSep(line, '\n');
    assert [line][..0] == [];
  }

  /**
   * The entry of a matching line: its name is the run of name characters
   * before the colon, and its command and options are the ' '-pieces of the
   * trimmed remainder.
   */
  lemma {:induction false} ParsedLine(line: string, k: nat)
    requires 0 < k < |line| - 1 && line[k] == ':' && IsName(line[..k])
    ensures var parts := Split(Trim(line[k + 1..]), ' ');
      LineEntries(line) == [Process(line[..k], parts[0], parts[1..])]
  {
    MatchLineAt(line, k);
    TrimDetails(line[k + 1..]);
  }

  /** A line that is not a process line contributes nothing. */
  lemma {:induction false} SkippedLine(line: string)
    requires !IsProcessLine(line)
    ensures LineEntries(line) == []
  {
    MatchLineIff(line);
  }

  /** `parse` on an empty input: no entries. */
  lemma {:induction false} ParseNothing()
    ensures Entries("") == []
  {
  }

  /** A sequence of lines gives no entries exactly when none of them is a process line. */
  lemma {:induction false} NoEntriesIff(lines: seq<string>)
    ensures EntriesOf(lines) == [] <==> forall i :: 0 <= i < |lines| ==> !IsProcessLine(lines[i])
    decreases |lines|
  {
    if lines != [] {
      var init := lines[..|lines| - 1];
      var last := lines[|lines| - 1];
      NoEntriesIff(init);
      MatchLineIff(last);
      assert EntriesOf(lines) == EntriesOf(init) + LineEntries(last);
      assert forall i :: 0 <= i < |init| ==> init[i] == lines[i];
    }
  }

  /** `parse` gives no entries exactly when no line of the input is a process line. */
  lemma ParseEmptyIff(content: string, lines: seq<string>)
    requires lines == Split(content, '\n')
    ensures Entries(content) == [] <==> forall i :: 0 <= i < |lines| ==> !IsProcessLine(lines[i])
  {
    NoEntriesIff(lines);
  }

  /** A line without a colon contributes nothing. */
  lemma {:induction false} NoColonSkipped(line: string)
    requires ':' !in line
    ensures LineEntries(line) == []
  {
    var k := NameLength(line);
    assert k < |line| ==> line[k] != ':';
  }

  // ---------------------------------------------------------------------
  // Lemmas: printing

  /** As written, `Display` reproduces the trimmed remainder only when there are options. */
  lemma {:induction false} DisplayOfEntry(c: Captures)
    ensures var p := EntryOf(c);
      Display(p) == if p.options == [] then Trim(c.details) + " " else Trim(c.details)
  {
    var parts := Split(Trim(c.details), ' ');
    JoinSplit(Trim(c.details), ' ');
    if |parts| == 1 {
      assert parts[1..] == [];
    } else {
      assert parts[1..][..] == parts[1..];
    }
  }

  /** The intended printer reproduces the trimmed remainder for every entry. */
  lemma {:induction false} DisplayIntendedOfEntry(c: Captures)
    ensures DisplayIntended(EntryOf(c)) == Trim(c.details)
  {
    var parts := Split(Trim(c.details), ' ');
    JoinSplit(Trim(c.details), ' ');
    assert [parts[0]] + parts[1..] == parts;
  }

  /** As written, a process without options prints with a trailing space. */
  lemma {:induction false} DisplayTrailingSpace()
    ensures var p := Process("web", "cargo", []);
      Display(p) == "cargo " && DisplayIntended(p) == "cargo"
  {
  }

  /** A process that a Procfile line can express. */
  predicate Renderable(p: Process) {
    var tokens := [p.command] + p.options;
    var last := tokens[|tokens| - 1];
    IsName(p.name) &&
    (forall i :: 0 <= i < |tokens| ==> ' ' !in tokens[i] && '\n' !in tokens[i]) &&
    p.command != [] && !IsSpace(p.command[0]) &&
    last != [] && !IsSpace(last[|last| - 1])
  }

  lemma {:induction false} JoinFirst(parts: seq<string>, sep: string)
    requires |parts| >= 1 && parts[0] != []
    ensures Join(parts, sep) != [] && Join(parts, sep)[0] == parts[0][0]
  {
  }

  lemma {:induction false} JoinLast(parts: seq<string>, sep: string)
    requires |parts| >= 1 && parts[|parts| - 1] != []
    ensures var s := Join(parts, sep);
      s != [] && s[|s| - 1] == parts[|parts| - 1][|parts[|parts| - 1]| - 1]
  {
    if |parts| > 1 {
      assert parts[1..][|parts| - 2] == parts[|parts| - 1];
      JoinLast(parts[1..], sep);
    }
  }

  lemma {:induction false} JoinNoNewline(parts: seq<string>)
    requires forall i :: 0 <= i < |parts| ==> '\n' !in parts[i]
    ensures '\n' !in Join(parts, " ")
  {
    if |parts| > 1 {
      JoinNoNewline(parts[1..]);
    }
  }

  /** A name, a colon, one space and text that starts with a non-space is matched as such. */
  lemma {:induction false} MatchPrinted(name: string, text: string)
    requires IsName(name) && text != [] && !IsSpace(text[0])
    ensures MatchLine(name + ": " + text) == Some(Captures(name, text))
  {
    var line := name + ": " + text;
    var k := |name|;
    assert line[..k] == name;
    assert line[k + 1..] == " " + text;
    MatchLineAt(line, k);
    DetailsAfterOneSpace(text);
  }

  /** The printed form of a renderable process: its tokens joined, plus a space when there are no options. */
  lemma {:induction false} DisplayOfRenderable(p: Process)
    requires Renderable(p)
    ensures var text := Join([p.command] + p.options, " ");
      text != [] && !IsSpace(text[0]) && !IsSpace(text[|text| - 1]) && '\n' !in text &&
      Display(p) == text + (if p.options == [] then " " else "")
  {
    var tokens := [p.command] + p.options;
    JoinFirst(tokens, " ");
    JoinLast(tokens, " ");
    JoinNoNewline(tokens);
    if p.options == [] {
      assert tokens == [p.command];
    } else {
      assert tokens[1..] == p.options;
    }
  }

  /** The printed line of a renderable process matches, and its entry is the process. */
  lemma {:induction false} PrintedEntry(p: Process)
    requires Renderable(p)
    ensures MatchLine(p.name + ": " + Display(p)) == Some(Captures(p.name, Display(p)))
    ensures EntryOf(Captures(p.name, Display(p))) == p
  {
    var tokens := [p.command] + p.options;
    var text := Join(tokens, " ");
    var tail := if p.options == [] then " " else "";
    DisplayOfRenderable(p);
    assert Display(p) == text + tail;
    assert (text + tail)[0] == text[0];
    MatchPrinted(p.name, Display(p));
    TrimDropsTrailingSpace(text, tail);
    SplitJoin(tokens, ' ');
    var parts := Split(Trim(Display(p)), ' ');
    assert parts == tokens;
    assert parts[1..] == p.options;
  }

  /** The printed line of a renderable process is one line. */
  lemma {:induction false} PrintedOneLine(p: Process)
    requires Renderable(p)
    ensures '\n' !in p.name + ": " + Display(p)
  {
    DisplayOfRenderable(p);
    assert '\n' !in p.name by {
      forall i | 0 <= i < |p.name| ensures p.name[i] != '\n' { assert IsNameChar(p.name[i]); }
    }
    assert Display(p) == Join([p.command] + p.options, " ") + (if p.options == [] then " " else "");
  }

  /** Printing an entry as `name: <Display>` and parsing it gives the entry back. */
  lemma {:induction false} PrintThenParse(p: Process)
    requires Renderable(p)
    ensures Entries(p.name + ": " + Display(p)) == [p]
  {
    var line := p.name + ": " + Display(p);
    PrintedEntry(p);
    PrintedOneLine(p);
    EntriesOfOneLine(line);
    assert LineEntries(line) == [EntryOf(Captures(p.name, Display(p)))];
  }

  /** The line the intended printer gives for a renderable process matches, and its entry is the process. */
  lemma {:induction false} IntendedEntry(p: Process)
    requires Renderable(p)
    ensures MatchLine(p.name + ": " + DisplayIntended(p)) == Some(Captures(p.name, DisplayIntended(p)))
    ensures EntryOf(Captures(p.name, DisplayIntended(p))) == p
  {
    var tokens := [p.command] + p.options;
    var text := DisplayIntended(p);
    DisplayOfRenderable(p);
    MatchPrinted(p.name, text);
    TrimTrimmed(text);
    SplitJoin(tokens, ' ');
    assert tokens[1..] == p.options;
  }

  /** With the intended printer the printed line parses back to the process, with or without options. */
  lemma {:induction false} PrintIntendedThenParse(p: Process)
    requires Renderable(p)
    ensures Entries(p.name + ": " + DisplayIntended(p)) == [p]
  {
    var line := p.name + ": " + DisplayIntended(p);
    IntendedEntry(p);
    DisplayOfRenderable(p);
    assert '\n' !in p.name by {
      forall i | 0 <= i < |p.name| ensures p.name[i] != '\n' { assert IsNameChar(p.name[i]); }
    }
    assert '\n' !in line;
    EntriesOfOneLine(line);
  }

  /** A one-line text without a colon gives no entries. */
  lemma NoColonNoEntries(line: string)
    requires ':' !in line && '\n' !in line
    ensures Entries(line) == []
  {
    EntriesOfOneLine(line);
    NoColonSkipped(line);
  }

  // ---------------------------------------------------------------------
  // The unit tests of src/procfile.rs, as lemmas

  /** `invalid_process`: a line without a colon gives no entries. */
  lemma {:induction false} ParseInvalid(content: string)
    requires content == "hedhehiidhodhidhiodiedhidwhio"
    ensures Entries(content) == []
  {
    assert ':' !in content && '\n' !in content;
    NoColonNoEntries(content);
  }

  lemma OneProcessRenderable()
    ensures Renderable(Process("web", "node", ["a.js", "--option-1", "--option-2"]))
  {
  }

  lemma {:induction false} OneProcessDisplay()
    ensures Display(Process("web", "node", ["a.js", "--option-1", "--option-2"]))
         == "node a.js --option-1 --option-2"
  {
    var options := ["a.js", "--option-1", "--option-2"];
    assert options[1..][1..] == ["--option-2"];
    assert Join(["--option-2"], " ") == "--option-2";
    var tail := Join(options[1..], " ");
    assert tail == "--option-1" + " " + "--option-2";
    assert Join(options, " ") == "a.js" + " " + tail;
  }

  /** The test's line, split at its colon. */
  lemma OneProcessLine(content: string)
    requires content == "web: node a.js --option-1 --option-2"
    ensures content == "web" + ": " + "node a.js --option-1 --option-2"
  {
  }

  /** `one_process`: one line, one process with three options. */
  lemma {:induction false} ParseOneProcess(content: string)
    requires content == "web: node a.js --option-1 --option-2"
    ensures Entries(content) == [Process("web", "node", ["a.js", "--option-1", "--option-2"])]
  {
    OneProcessRenderable();
    OneProcessDisplay();
    OneProcessLine(content);
    PrintThenParse(Process("web", "node", ["a.js", "--option-1", "--option-2"]));
  }

  lemma TwoProcessesRenderable()
    ensures Renderable(Process("web", "py", ["b.py", "--my-option"]))
    ensures Renderable(Process("worker", "gcc", ["c.c"]))
  {
  }

  lemma {:induction false} TwoProcessesDisplay()
    ensures Display(Process("web", "py", ["b.py", "--my-option"])) == "py b.py --my-option"
    ensures Display(Process("worker", "gcc", ["c.c"])) == "gcc c.c"
  {
    var options := ["b.py", "--my-option"];
    assert options[1..] == ["--my-option"];
  }

  lemma {:induction false} WebEntries(line: string)
    requires line == "web: py b.py --my-option"
    ensures Entries(line) == [Process("web", "py", ["b.py", "--my-option"])]
  {
    TwoProcessesRenderable();
    TwoProcessesDisplay();
    assert line == "web" + ": " + "py b.py --my-option";
    PrintThenParse(Process("web", "py", ["b.py", "--my-option"]));
  }

  lemma {:induction false} WorkerEntries(line: string)
    requires line == "worker: gcc c.c"
    ensures Entries(line) == [Process("worker", "gcc", ["c.c"])]
  {
    TwoProcessesRenderable();
    TwoProcessesDisplay();
    assert line == "worker" + ": " + "gcc c.c";
    PrintThenParse(Process("worker", "gcc", ["c.c"]));
  }

  /**
   * The third line of `multiple_process`, only spaces, gives no entries: the
   * per-line step of that test, beside `WebEntries` and `WorkerEntries`. It
   * has the shape of `ParseInvalid` on purpose; keeping it separate keeps
   * the proof of `ParseTwoProcesses` small.
   */
  lemma BlankEntries(line: string)
    requires line == "        "
    ensures Entries(line) == []
  {
    assert ':' !in line && '\n' !in line;
    NoColonNoEntries(line);
  }

  /** The test's content, split into its three lines. */
  lemma TwoProcessesLines(content: string)
    requires content == "web: py b.py --my-option\nworker: gcc c.c\n        "
    ensures content == "web: py b.py --my-option" + "\n" + ("worker: gcc c.c" + "\n" + "        ")
  {
  }

  /** `multiple_process`: two processes, then a line of spaces that is skipped. */
  lemma {:induction false} ParseTwoProcesses(content: string)
    requires content == "web: py b.py --my-option\nworker: gcc c.c\n        "
    ensures Entries(content)
         == [Process("web", "py", ["b.py", "--my-option"]), Process("worker", "gcc", ["c.c"])]
  {
    var web, worker, blank := "web: py b.py --my-option", "worker: gcc c.c", "        ";
    TwoProcessesLines(content);
    WebEntries(web);
    WorkerEntries(worker);
    BlankEntries(blank);
    EntriesConcat(worker, blank);
    EntriesConcat(web, worker + "\n" + blank);
  }

  lemma DisplayRenderable()
    ensures Renderable(Process("web", "node", ["index.mjs", "--verbose"]))
  {
  }

  lemma {:induction false} DisplayOfParsed()
    ensures Display(Process("web", "node", ["index.mjs", "--verbose"])) == "node index.mjs --verbose"
  {
    var options := ["index.mjs", "--verbose"];
    assert options[1..] == ["--verbose"];
  }

  /** The test's line, split at its colon. */
  lemma DisplayLine(content: string)
    requires content == "web: node index.mjs --verbose"
    ensures content == "web" + ": " + "node index.mjs --verbose"
  {
  }

  /** `test_display`: the parsed process prints as its command line. */
  lemma {:induction false} DisplayOneProcess(content: string)
    requires content == "web: node index.mjs --verbose"
    ensures |Entries(content)| == 1
    ensures Display(Entries(content)[0]) == "node index.mjs --verbose"
  {
    DisplayRenderable();
    DisplayOfParsed();
    DisplayLine(content);
    PrintThenParse(Process("web", "node", ["index.mjs", "--verbose"]));
  }
}
