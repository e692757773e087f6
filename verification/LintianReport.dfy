/** Reading the output of lintian: tag lines, each after a comment of the maintainer and before an explanation,
    which are both in lines that start with N:. */
module LintianReport {
  import opened Outcomes
  import opened Strings

  datatype Severity = Error | Warning | Info | Pedantic | Experimental | Overridden | Classification | Masked

  datatype Tag = Tag(
    severity: Severity,
    package: string,
    name: string,
    note: string,
    reference: string,
    explanation: string,
    comment: string)

  /** What a line that does not start with N: is: a tag, the repetition of the tag above, or neither. */
  datatype TagLine = Full(tag: Tag) | Repeated | Unparsable

  type Parser = string -> TagLine

  // ----- trimming -----

  /** White space as Python's str.strip knows it. */
  predicate IsSpace(c: char) {
    var n := c as int;
    || 9 <= n <= 13 || 28 <= n <= 32 || n == 0x85 || n == 0xA0 || n == 0x1680 || 0x2000 <= n <= 0x200A
    || n == 0x2028 || n == 0x2029 || n == 0x202F || n == 0x205F || n == 0x3000
  }

  function LeftStrip(s: string): string {
    if s != "" && IsSpace(s[0]) then LeftStrip(s[1..]) else s
  }

  function RightStrip(s: string): string {
    if s != "" && IsSpace(s[|s| - 1]) then RightStrip(s[..|s| - 1]) else s
  }

  function Strip(s: string): string {
    RightStrip(LeftStrip(s))
  }

  predicate Trimmed(s: string) {
    s != "" ==> !IsSpace(s[0]) && !IsSpace(s[|s| - 1])
  }

  /** Drops the characters N and : from the front. */
  function StripMarker(s: string): string {
    if s != "" && (s[0] == 'N' || s[0] == ':') then StripMarker(s[1..]) else s
  }

  // ----- parsing -----

  /** The variables of the loop. `tag` is the last tag that was read; it is in `tags` unless it is masked. */
  datatype State = State(
    done: seq<Tag>,
    tag: Option<Tag>,
    previous: Option<string>,
    inComment: bool,
    explanation: string,
    comment: string)

  const START := State([], None, None, false, "", "")

  function Listed(tag: Option<Tag>): seq<Tag> {
    if tag.Some? && tag.value.severity != Masked then [tag.value] else []
  }

  function Explained(tag: Option<Tag>, explanation: string): Option<Tag> {
    if tag.Some? then Some(tag.value.(explanation := Strip(explanation))) else None
  }

  function MarkedLine(s: State, line: string): State {
    var parsed := LeftStrip(StripMarker(line)) + "\n";
    if s.inComment then s.(comment := s.comment + parsed)
    else if s.explanation != "" || parsed != "\n" then s.(explanation := s.explanation + parsed)
    else s
  }

  /** One line; None if it cannot be parsed. */
  function Step(parse: Parser, s: State, raw: string): Option<State> {
    var line := Strip(raw);
    if line == "N:" && s.previous == Some("N:") then Some(s.(inComment := true, previous := Some(line)))
    else if StartsWith(line, "N:") then Some(MarkedLine(s, line).(previous := Some(line)))
    else
      var rest := if s.tag.Some? then "" else s.explanation;
      match parse(line)
      case Unparsable => None
      case Repeated => Some(s.(tag := Explained(s.tag, s.explanation), explanation := rest, previous := Some(line)))
      case Full(t) =>
        Some(State(s.done + Listed(Explained(s.tag, s.explanation)),
                   Some(t.(explanation := "", comment := Strip(s.comment))), Some(line), false, rest, ""))
  }

  function Run(parse: Parser, s: State, lines: seq<string>): Option<State>
    decreases lines
  {
    if lines == [] then Some(s)
    else
      var next := Step(parse, s, lines[0]);
      if next.None? then None else Run(parse, next.value, lines[1..])
  }

  function Finish(s: State): seq<Tag> {
    s.done + Listed(Explained(s.tag, s.explanation))
  }

  lemma {:induction false} RunAppend(parse: Parser, s: State, a: seq<string>, b: seq<string>)
    ensures Run(parse, s, a + b) ==
      if Run(parse, s, a).None? then None else Run(parse, Run(parse, s, a).value, b)
    decreases a
  {
    if a == [] {
      assert a + b == b;
    } else {
      assert (a + b)[1..] == a[1..] + b;
      var next := Step(parse, s, a[0]);
      if next.Some? {
        RunAppend(parse, next.value, a[1..], b);
      }
    }
  }

  // ----- reports -----

  /** A line of text below a marker; the text has no white space around it. */
  datatype Note = Note(indent: nat, text: string)

  /** A tag with the comment above it and the explanation below it. Older versions of lintian repeat the tag line
      before the explanation. */
  datatype Entry = Entry(comment: seq<Note>, line: string, tag: Tag, repeated: Option<string>, explanation: seq<Note>)

  function Spaces(n: nat): string {
    if n == 0 then "" else " " + Spaces(n - 1)
  }

  function NoteLine(n: Note): string {
    if n.text == "" then "N:" else "N:" + (Spaces(n.indent + 1) + n.text)
  }

  function NoteLines(notes: seq<Note>): seq<string> {
    if notes == [] then [] else [NoteLine(notes[0])] + NoteLines(notes[1..])
  }

  function RenderEntry(e: Entry): seq<string> {
    (if e.comment == [] then [] else ["N:", "N:"] + NoteLines(e.comment))
    + ([e.line] + (if e.repeated.Some? then ["N:", e.repeated.value] else []))
    + NoteLines(e.explanation)
  }

  function Render(report: seq<Entry>): seq<string> {
    if report == [] then [] else RenderEntry(report[0]) + Render(report[1..])
  }

  /** The text of some notes, a line for each. */
  function Text(notes: seq<Note>): string {
    if notes == [] then "" else notes[0].text + "\n" + Text(notes[1..])
  }

  predicate Blank(n: Note) {
    n.text == ""
  }

  predicate TextsOk(notes: seq<Note>) {
    forall n :: n in notes ==> Trimmed(n.text)
  }

  predicate PlainLine(line: string) {
    Trimmed(line) && !StartsWith(line, "N:")
  }

  /** The texts are trimmed, and the tag lines parse. */
  predicate EntryOk(parse: Parser, e: Entry) {
    && TextsOk(e.comment) && TextsOk(e.explanation)
    && PlainLine(e.line) && parse(e.line) == Full(e.tag)
    && (e.repeated.Some? ==> PlainLine(e.repeated.value) && parse(e.repeated.value) == Repeated)
  }

  /** The tag of an entry with its own comment and explanation. */
  function TagOf(e: Entry): Tag {
    e.tag.(comment := Strip(Text(e.comment)), explanation := Strip(Text(e.explanation)))
  }

  predicate IsMasked(e: Entry) {
    e.tag.severity == Masked
  }

  /** The tags of a report that are not masked. */
  function Expected(report: seq<Entry>): seq<Tag> {
    if report == [] then []
    else (if IsMasked(report[0]) then [] else [TagOf(report[0])]) + Expected(report[1..])
  }

  // ----- when a report can be read -----

  predicate AllBlank(notes: seq<Note>) {
    forall n :: n in notes ==> Blank(n)
  }

  ghost predicate BlankPair(notes: seq<Note>, i: int) {
    0 < i < |notes| && Blank(notes[i - 1]) && Blank(notes[i])
  }

  /** After two blank lines in a row there are only blank lines. */
  ghost predicate Unbroken(notes: seq<Note>) {
    forall i, j :: BlankPair(notes, i) && i < j < |notes| ==> Blank(notes[j])
  }

  function SkipBlank(notes: seq<Note>): seq<Note> {
    if notes != [] && Blank(notes[0]) then SkipBlank(notes[1..]) else notes
  }

  /** The entry does not come into the result, or its own notes are unbroken, apart from blank lines above the comment,
      and so is the explanation above it. */
  ghost predicate EntryReadable(report: seq<Entry>, i: nat)
    requires i < |report|
  {
    IsMasked(report[i]) || (
      && Unbroken(report[i].explanation) && Unbroken(SkipBlank(report[i].comment))
      && (i > 0 ==> Unbroken(report[i - 1].explanation)))
  }

  ghost predicate Readable(report: seq<Entry>) {
    forall i :: 0 <= i < |report| ==> EntryReadable(report, i)
  }

  // ----- what a note line says -----

  lemma {:induction false} SpacesStripped(k: nat, text: string)
    requires Trimmed(text)
    ensures LeftStrip(Spaces(k) + text) == text
  {
    if k == 0 {
      assert Spaces(0) + text == text;
    } else {
      assert (Spaces(k) + text)[1..] == Spaces(k - 1) + text;
      SpacesStripped(k - 1, text);
    }
  }

  lemma {:induction false} MarkerStripped(rest: string)
    requires rest != "" ==> rest[0] == ' '
    ensures StripMarker("N:" + rest) == rest
  {
    var line := "N:" + rest;
    assert line[1..] == ":" + rest && line[1..][1..] == rest;
    assert StripMarker(rest) == rest;
    assert StripMarker(line[1..]) == rest;
  }

  lemma {:induction false} NoteLineRead(n: Note)
    requires Trimmed(n.text)
    ensures Strip(NoteLine(n)) == NoteLine(n) && StartsWith(NoteLine(n), "N:")
    ensures LeftStrip(StripMarker(NoteLine(n))) == n.text
    ensures NoteLine(n) == "N:" <==> n.text == ""
  {
    var rest := if n.text == "" then "" else Spaces(n.indent + 1) + n.text;
    assert NoteLine(n) == "N:" + rest;
    MarkerStripped(rest);
    if n.text != "" {
      SpacesStripped(n.indent + 1, n.text);
      assert NoteLine(n)[|NoteLine(n)| - 1] == n.text[|n.text| - 1];
      assert |NoteLine(n)| > 2;
    }
  }

  // ----- what is kept of notes -----

  /** The explanation up to the second of two blank lines in a row; `prev` tells whether the line above is blank. */
  function Told(prev: bool, notes: seq<Note>): seq<Note>
    decreases notes
  {
    if notes == [] || (prev && Blank(notes[0])) then []
    else [notes[0]] + Told(Blank(notes[0]), notes[1..])
  }

  /** What comes after those, and is taken for a comment. */
  function Leak(prev: bool, notes: seq<Note>): Option<seq<Note>>
    decreases notes
  {
    if notes == [] then None
    else if prev && Blank(notes[0]) then Some(notes[1..])
    else Leak(Blank(notes[0]), notes[1..])
  }

  /** In a comment, a blank line below a blank line is dropped. */
  function Collapse(prev: bool, notes: seq<Note>): seq<Note>
    decreases notes
  {
    if notes == [] then []
    else if prev && Blank(notes[0]) then Collapse(true, notes[1..])
    else [notes[0]] + Collapse(Blank(notes[0]), notes[1..])
  }

  /** Unbroken, seen from the line above. */
  predicate UnbrokenAfter(prev: bool, notes: seq<Note>)
    decreases notes
  {
    if notes == [] then true
    else if prev && Blank(notes[0]) then AllBlank(notes[1..])
    else UnbrokenAfter(Blank(notes[0]), notes[1..])
  }

  lemma PairBehind(first: Note, notes: seq<Note>, i: int)
    ensures BlankPair([first] + notes, i + 1) <==>
      BlankPair(notes, i) || (i == 0 && notes != [] && Blank(first) && Blank(notes[0]))
  {
  }

  lemma {:induction false} PairAtStart(first: Note, notes: seq<Note>)
    requires notes != [] && Blank(first) && Blank(notes[0])
    ensures Unbroken([first] + notes) <==> AllBlank(notes[1..])
  {
    var all, rest := [first] + notes, notes[1..];
    assert BlankPair(all, 1);
    assert forall j :: 0 <= j < |rest| ==> rest[j] == all[j + 2];
    assert forall j :: 1 < j < |all| ==> all[j] == rest[j - 2] && rest[j - 2] in rest;
  }

  lemma {:induction false} NoPairAtStart(first: Note, notes: seq<Note>)
    requires notes != [] && !(Blank(first) && Blank(notes[0]))
    ensures Unbroken([first] + notes) <==> Unbroken(notes)
  {
    var all := [first] + notes;
    assert forall i :: BlankPair(all, i + 1) <==> BlankPair(notes, i) by {
      forall i {
        PairBehind(first, notes, i);
      }
    }
    if Unbroken(all) {
      forall i, j | BlankPair(notes, i) && i < j < |notes|
        ensures Blank(notes[j])
      {
        assert BlankPair(all, i + 1) && all[j + 1] == notes[j];
      }
    } else {
      var i, j :| BlankPair(all, i) && i < j < |all| && !Blank(all[j]);
      PairBehind(first, notes, i - 1);
      assert BlankPair(notes, i - 1) && notes[j - 1] == all[j];
    }
  }

  lemma {:induction false} UnbrokenFrom(first: Note, notes: seq<Note>)
    ensures Unbroken([first] + notes) <==> UnbrokenAfter(Blank(first), notes)
    decreases notes
  {
    if notes != [] {
      assert notes == [notes[0]] + notes[1..];
      if Blank(first) && Blank(notes[0]) {
        PairAtStart(first, notes);
      } else {
        UnbrokenFrom(notes[0], notes[1..]);
        NoPairAtStart(first, notes);
      }
    }
  }

  lemma {:induction false} UnbrokenStart(notes: seq<Note>)
    ensures Unbroken(notes) <==> UnbrokenAfter(false, notes)
  {
    if notes != [] {
      assert notes == [notes[0]] + notes[1..];
      UnbrokenFrom(notes[0], notes[1..]);
    }
  }

  // ----- how much text there is -----

  /** The number of characters that are not white space. */
  function Solid(s: string): nat {
    if s == "" then 0 else (if IsSpace(s[0]) then 0 else 1) + Solid(s[1..])
  }

  lemma {:induction false} SolidTogether(a: string, b: string)
    ensures Solid(a + b) == Solid(a) + Solid(b)
  {
    if a == "" {
      assert a + b == b;
    } else {
      assert (a + b)[1..] == a[1..] + b;
      SolidTogether(a[1..], b);
    }
  }

  lemma {:induction false} SolidLeft(s: string)
    ensures Solid(LeftStrip(s)) == Solid(s)
  {
    if s != "" && IsSpace(s[0]) {
      SolidLeft(s[1..]);
    }
  }

  lemma {:induction false} SolidRight(s: string)
    ensures Solid(RightStrip(s)) == Solid(s)
    decreases |s|
  {
    if s != "" && IsSpace(s[|s| - 1]) {
      var n := |s| - 1;
      SolidRight(s[..n]);
      assert s == s[..n] + [s[n]] && [s[n]][1..] == "";
      SolidTogether(s[..n], [s[n]]);
    }
  }

  lemma {:induction false} SolidStripped(s: string)
    ensures Solid(Strip(s)) == Solid(s)
  {
    SolidLeft(s);
    SolidRight(LeftStrip(s));
  }

  lemma {:induction false} SpacesBefore(a: string, b: string)
    requires Solid(a) == 0
    ensures LeftStrip(a + b) == LeftStrip(b) && Strip(a + b) == Strip(b)
  {
    if a == "" {
      assert a + b == b;
    } else {
      assert (a + b)[1..] == a[1..] + b;
      SpacesBefore(a[1..], b);
    }
  }

  lemma {:induction false} SpacesBehind(a: string, b: string)
    requires Solid(b) == 0
    ensures RightStrip(a + b) == RightStrip(a)
    decreases |b|
  {
    if b == "" {
      assert a + b == a;
    } else {
      var n := |b| - 1;
      assert b == b[..n] + [b[n]] && [b[n]][1..] == "";
      SolidTogether(b[..n], [b[n]]);
      assert (a + b)[..|a| + n] == a + b[..n];
      SpacesBehind(a, b[..n]);
    }
  }

  /** White space is only taken from the last text. */
  lemma {:induction false} SolidBehind(a: string, b: string)
    requires Solid(b) > 0
    ensures RightStrip(a + b) == a + RightStrip(b)
    decreases |b|
  {
    var n := |b| - 1;
    assert b == b[..n] + [b[n]] && [b[n]][1..] == "";
    SolidTogether(b[..n], [b[n]]);
    if IsSpace(b[n]) {
      assert (a + b)[..|a| + n] == a + b[..n];
      SolidBehind(a, b[..n]);
    }
  }

  lemma {:induction false} SolidIfNotBlank(n: Note)
    requires Trimmed(n.text)
    ensures Solid(n.text + "\n") > 0 <==> !Blank(n)
  {
    SolidTogether(n.text, "\n");
    assert "\n"[1..] == "";
  }

  lemma {:induction false} SolidText(notes: seq<Note>)
    requires TextsOk(notes)
    ensures Solid(Text(notes)) > 0 <==> !AllBlank(notes)
  {
    if notes != [] {
      SolidText(notes[1..]);
      SolidIfNotBlank(notes[0]);
      SolidTogether(notes[0].text + "\n", Text(notes[1..]));
      assert notes == [notes[0]] + notes[1..];
    }
  }

  /** Collapsing drops no text. */
  lemma {:induction false} SolidCollapsed(prev: bool, notes: seq<Note>)
    ensures Solid(Text(Collapse(prev, notes))) == Solid(Text(notes))
    decreases notes
  {
    if notes != [] {
      var rest := notes[1..];
      var line := notes[0].text + "\n";
      SolidTogether(line, Text(rest));
      if prev && Blank(notes[0]) {
        SolidCollapsed(true, rest);
        assert line == "\n" && "\n"[1..] == "";
      } else {
        SolidCollapsed(Blank(notes[0]), rest);
        assert Collapse(prev, notes)[1..] == Collapse(Blank(notes[0]), rest);
        SolidTogether(line, Text(Collapse(Blank(notes[0]), rest)));
      }
    }
  }

  // ----- which explanations survive -----

  lemma Regroup(a: string, b: string, c: string)
    ensures a + b + c == a + (b + c)
  {
  }

  lemma {:induction false} TextFirst(n: Note, notes: seq<Note>)
    ensures Text([n] + notes) == n.text + "\n" + Text(notes)
  {
    assert ([n] + notes)[1..] == notes;
  }

  lemma {:induction false} ToldAndLeaked(prev: bool, notes: seq<Note>)
    ensures Leak(prev, notes).None? ==> Told(prev, notes) == notes && UnbrokenAfter(prev, notes)
    ensures Leak(prev, notes).Some? ==>
      && Text(notes) == Text(Told(prev, notes)) + ("\n" + Text(Leak(prev, notes).value))
      && (UnbrokenAfter(prev, notes) <==> AllBlank(Leak(prev, notes).value))
      && (TextsOk(notes) ==> TextsOk(Leak(prev, notes).value))
    decreases notes
  {
    if notes != [] {
      if prev && Blank(notes[0]) {
        assert Text(notes) == "" + ("\n" + Text(notes[1..]));
      } else {
        var n, rest := notes[0], notes[1..];
        ToldAndLeaked(Blank(n), rest);
        assert notes == [n] + rest;
        TextFirst(n, rest);
        TextFirst(n, Told(Blank(n), rest));
        hide Text, Trimmed, AllBlank;
        if Leak(prev, notes).Some? {
          Regroup(n.text + "\n", Text(Told(Blank(n), rest)), "\n" + Text(Leak(prev, notes).value));
        }
      }
    }
  }

  /** An explanation is recovered exactly if it is unbroken. */
  lemma {:induction false} ExplanationSurvives(notes: seq<Note>)
    requires TextsOk(notes)
    ensures Strip(Text(Told(false, notes))) == Strip(Text(notes)) <==> Unbroken(notes)
  {
    var told, leak := Text(Told(false, notes)), Leak(false, notes);
    UnbrokenStart(notes);
    ToldAndLeaked(false, notes);
    if leak.Some? {
      var rest := "\n" + Text(leak.value);
      SolidText(leak.value);
      SolidTogether("\n", Text(leak.value));
      assert "\n"[1..] == "";
      SolidStripped(told);
      SolidStripped(told + rest);
      SolidTogether(told, rest);
      if Unbroken(notes) {
        StripSpacesBehind(told, rest);
      }
    }
  }

  lemma {:induction false} StripSpacesBehind(a: string, b: string)
    requires Solid(b) == 0
    ensures Strip(a + b) == Strip(a)
  {
    if a == "" {
      assert a + b == b + "";
      SpacesBefore(b, "");
    } else if IsSpace(a[0]) {
      assert (a + b)[1..] == a[1..] + b;
      StripSpacesBehind(a[1..], b);
    } else {
      SpacesBehind(a, b);
    }
  }

  // ----- which comments survive -----

  lemma {:induction false} BlankIsUnbroken(prev: bool, notes: seq<Note>)
    requires AllBlank(notes)
    ensures UnbrokenAfter(prev, notes)
    decreases notes
  {
    if notes != [] && !(prev && Blank(notes[0])) {
      BlankIsUnbroken(Blank(notes[0]), notes[1..]);
    }
  }

  lemma {:induction false} StripLine(text: string, a: string, b: string)
    requires Trimmed(text) && Solid(a) == Solid(b)
    ensures Solid(a) > 0 ==>
      RightStrip(text + "\n" + a) == text + "\n" + RightStrip(a) &&
        RightStrip(text + "\n" + b) == text + "\n" + RightStrip(b)
    ensures Solid(a) == 0 ==> RightStrip(text + "\n" + a) == RightStrip(text + "\n" + b)
  {
    if Solid(a) > 0 {
      SolidBehind(text + "\n", a);
      SolidBehind(text + "\n", b);
    } else {
      SpacesBehind(text + "\n", a);
      SpacesBehind(text + "\n", b);
    }
  }

  /** Up to the last text, collapsing changes nothing exactly if the notes are unbroken; otherwise they get shorter. */
  lemma {:induction false} CollapsedExactly(prev: bool, notes: seq<Note>)
    requires TextsOk(notes)
    ensures
      var less, all := RightStrip(Text(Collapse(prev, notes))), RightStrip(Text(notes));
      if UnbrokenAfter(prev, notes) then less == all else |less| < |all|
    decreases notes
  {
    hide RightStrip, Solid;
    if notes != [] {
      var n, rest := notes[0], notes[1..];
      SolidText(rest);
      if prev && Blank(n) {
        CollapsedExactly(true, rest);
        StripLine(n.text, Text(rest), Text(rest));
        assert Text(notes) == "\n" + Text(rest);
        BlankCollapsed(rest);
      } else {
        CollapsedExactly(Blank(n), rest);
        SolidCollapsed(Blank(n), rest);
        var less := Text(Collapse(Blank(n), rest));
        assert Collapse(prev, notes)[1..] == Collapse(Blank(n), rest);
        StripLine(n.text, less, Text(rest));
        if AllBlank(rest) {
          BlankIsUnbroken(Blank(n), rest);
        }
      }
    }
  }

  lemma {:induction false} BlankCollapsed(notes: seq<Note>)
    requires TextsOk(notes)
    ensures AllBlank(notes) ==> RightStrip(Text(Collapse(true, notes))) == RightStrip("\n" + Text(notes))
    ensures !AllBlank(notes) ==> |RightStrip("\n" + Text(notes))| == 1 + |RightStrip(Text(notes))|
    ensures UnbrokenAfter(true, notes) || !AllBlank(notes)
  {
    SolidText(notes);
    if AllBlank(notes) {
      BlankIsUnbroken(true, notes);
      SolidCollapsed(true, notes);
      CollapsedToNothing(notes);
      SpacesBehind("", "\n" + Text(notes)) by {
        SolidTogether("\n", Text(notes));
        assert "\n"[1..] == "";
      }
      assert "" + ("\n" + Text(notes)) == "\n" + Text(notes);
    } else {
      SolidBehind("\n", Text(notes));
    }
  }

  lemma {:induction false} CollapsedToNothing(notes: seq<Note>)
    requires AllBlank(notes)
    ensures Collapse(true, notes) == []
  {
    if notes != [] {
      CollapsedToNothing(notes[1..]);
    }
  }

  lemma {:induction false} BlankSkipped(notes: seq<Note>)
    requires TextsOk(notes)
    ensures TextsOk(SkipBlank(notes)) && Collapse(true, notes) == Collapse(false, SkipBlank(notes))
    ensures LeftStrip(Text(notes)) == Text(SkipBlank(notes))
    ensures LeftStrip(Text(Collapse(true, notes))) == Text(Collapse(true, notes))
  {
    if notes != [] {
      if Blank(notes[0]) {
        BlankSkipped(notes[1..]);
        assert Text(notes) == "\n" + Text(notes[1..]);
        assert "\n"[1..] == "";
        SpacesBefore("\n", Text(notes[1..]));
      } else {
        assert Text(notes)[0] == notes[0].text[0];
        assert Text(Collapse(true, notes))[0] == notes[0].text[0];
      }
    }
  }

  /** A comment is recovered exactly if nothing but white space was kept before it, and it is unbroken apart from blank
      lines above it. */
  lemma {:induction false} CommentSurvives(before: string, notes: seq<Note>)
    requires TextsOk(notes)
    ensures Strip(before + Text(Collapse(true, notes))) == Strip(Text(notes)) <==>
      Solid(before) == 0 && Unbroken(SkipBlank(notes))
  {
    var read := Text(Collapse(true, notes));
    SolidCollapsed(true, notes);
    SolidTogether(before, read);
    SolidStripped(before + read);
    SolidStripped(Text(notes));
    if Solid(before) == 0 {
      SpacesBefore(before, read);
      BlankSkipped(notes);
      UnbrokenStart(SkipBlank(notes));
      CollapsedExactly(false, SkipBlank(notes));
    }
  }

  // ----- reading notes -----

  /** What becomes of the explanation: blank lines at the start are skipped. */
  function Gather(explanation: string, notes: seq<Note>): string
    decreases notes
  {
    if notes == [] then explanation
    else if explanation != "" || notes[0].text != "" then Gather(explanation + (notes[0].text + "\n"), notes[1..])
    else Gather(explanation, notes[1..])
  }

  lemma {:induction false} GatherAll(explanation: string, notes: seq<Note>)
    requires explanation != ""
    ensures Gather(explanation, notes) == explanation + Text(notes)
    decreases notes
  {
    if notes != [] {
      GatherAll(explanation + (notes[0].text + "\n"), notes[1..]);
      assert explanation + (notes[0].text + "\n") + Text(notes[1..]) ==
        explanation + (notes[0].text + "\n" + Text(notes[1..]));
    }
  }

  lemma {:induction false} NewlineBefore(s: string)
    ensures Strip("\n" + s) == Strip(s)
  {
    assert ("\n" + s)[1..] == s;
  }

  lemma {:induction false} NewlineAfter(s: string)
    ensures Strip(s + "\n") == Strip(s)
  {
    if s == "" {
      assert s + "\n" == "\n" + s;
      NewlineBefore(s);
    } else if IsSpace(s[0]) {
      assert (s + "\n")[1..] == s[1..] + "\n";
      NewlineAfter(s[1..]);
    } else {
      assert (s + "\n")[..|s|] == s;
    }
  }

  lemma {:induction false} GatherText(notes: seq<Note>)
    ensures Strip(Gather("", notes)) == Strip(Text(notes))
  {
    if notes != [] {
      if notes[0].text == "" {
        GatherText(notes[1..]);
        assert Text(notes) == "\n" + Text(notes[1..]);
        NewlineBefore(Text(notes[1..]));
      } else {
        assert "" + (notes[0].text + "\n") == notes[0].text + "\n";
        GatherAll(notes[0].text + "\n", notes[1..]);
      }
    }
  }

  predicate BelowBlank(s: State) {
    s.previous == Some("N:")
  }

  /** The state after one note that does not start a comment. */
  function AfterNote(s: State, n: Note): State {
    var line := Some(NoteLine(n));
    if s.inComment then s.(comment := s.comment + (n.text + "\n"), previous := line)
    else if s.explanation != "" || n.text != ""
      then s.(explanation := s.explanation + (n.text + "\n"), previous := line)
    else s.(previous := line)
  }

  lemma {:induction false} NoteStep(parse: Parser, s: State, n: Note)
    requires Trimmed(n.text) && !(Blank(n) && BelowBlank(s))
    ensures Step(parse, s, NoteLine(n)) == Some(AfterNote(s, n)) && (BelowBlank(AfterNote(s, n)) <==> Blank(n))
  {
    NoteLineRead(n);
    assert n.text + "\n" == "\n" <==> n.text == "" by {
      assert |n.text + "\n"| == |n.text| + 1;
    }
  }

  lemma {:induction false} BlankStep(parse: Parser, s: State, n: Note)
    requires Blank(n) && BelowBlank(s)
    ensures Step(parse, s, NoteLine(n)) == Some(s.(inComment := true))
  {
    NoteLineRead(n);
  }

  lemma {:induction false} CollapsedText(prev: bool, notes: seq<Note>)
    ensures Text(Collapse(prev, notes)) ==
      if notes == [] then ""
      else if prev && Blank(notes[0]) then Text(Collapse(true, notes[1..]))
      else notes[0].text + "\n" + Text(Collapse(Blank(notes[0]), notes[1..]))
  {
    if notes != [] && !(prev && Blank(notes[0])) {
      TextFirst(notes[0], Collapse(Blank(notes[0]), notes[1..]));
    }
  }

  lemma {:induction false} CommentNotesRead(parse: Parser, s: State, notes: seq<Note>) returns (s': State)
    requires s.inComment && TextsOk(notes)
    ensures Run(parse, s, NoteLines(notes)) == Some(s')
    ensures s' == s.(comment := s.comment + Text(Collapse(BelowBlank(s), notes)), previous := s'.previous)
    decreases notes
  {
    hide Step, NoteLine, Trimmed, Text;
    CollapsedText(BelowBlank(s), notes);
    if notes == [] {
      s' := s;
      assert s.comment + "" == s.comment;
    } else {
      var n, rest := notes[0], notes[1..];
      assert NoteLines(notes)[1..] == NoteLines(rest);
      if Blank(n) && BelowBlank(s) {
        BlankStep(parse, s, n);
        s' := CommentNotesRead(parse, s, rest);
      } else {
        NoteStep(parse, s, n);
        var next := AfterNote(s, n);
        s' := CommentNotesRead(parse, next, rest);
        Regroup(s.comment, n.text + "\n", Text(Collapse(Blank(n), rest)));
      }
    }
  }

  /** Explanations are read up to two blank lines; the rest is taken for a comment. */
  ghost predicate ReadAsExplanation(s: State, s': State, notes: seq<Note>) {
    var prev := BelowBlank(s);
    var leak := Leak(prev, notes);
    && s'.done == s.done && s'.tag == s.tag
    && s'.explanation == Gather(s.explanation, Told(prev, notes))
    && s'.inComment == leak.Some?
    && s'.comment == s.comment + if leak.Some? then Text(Collapse(true, leak.value)) else ""
  }

  lemma {:induction false} NotesRead(parse: Parser, s: State, notes: seq<Note>) returns (s': State)
    requires !s.inComment && TextsOk(notes)
    ensures Run(parse, s, NoteLines(notes)) == Some(s') && ReadAsExplanation(s, s', notes)
    decreases notes
  {
    if notes == [] {
      s' := s;
      assert s.comment + "" == s.comment;
    } else {
      var n, rest := notes[0], notes[1..];
      assert NoteLines(notes)[1..] == NoteLines(rest);
      if Blank(n) && BelowBlank(s) {
        BlankStep(parse, s, n);
        s' := CommentNotesRead(parse, s.(inComment := true), rest);
      } else {
        NoteStep(parse, s, n);
        s' := NotesRead(parse, AfterNote(s, n), rest);
        assert Told(BelowBlank(s), notes)[1..] == Told(Blank(n), rest);
      }
    }
  }

  // ----- reading an entry -----

  /** Between entries: what is kept of notes is either for the tag above or for a comment. */
  predicate Between(s: State) {
    (!s.inComment ==> s.comment == "") && (s.tag.None? ==> s.explanation == "")
  }

  function CommentLines(comment: seq<Note>): seq<string> {
    if comment == [] then [] else ["N:", "N:"] + NoteLines(comment)
  }

  /** The state when the tag line comes: `before` is what was kept before the comment. */
  ghost predicate BeforeTag(s: State, s': State, before: string, comment: seq<Note>) {
    && s'.done == s.done && s'.tag == s.tag && s'.comment == before + Text(Collapse(true, comment))
    && Solid(before) == Solid(s.comment) && (comment == [] ==> before == s.comment)
    && Strip(s'.explanation) == Strip(s.explanation) && (s.explanation == "" ==> s'.explanation == "")
  }

  /** The two blank lines above a comment, when a comment has been started already. */
  lemma {:induction false} CommentGoesOn(parse: Parser, s: State, lines: seq<string>) returns (s': State)
    requires s.inComment && lines == ["N:", "N:"]
    ensures Run(parse, s, lines) == Some(s') && BelowBlank(s')
    ensures s' == s.(comment := s'.comment, previous := s'.previous) && Solid(s'.comment) == Solid(s.comment)
  {
    var n := Note(0, "");
    assert lines[1..] == ["N:"] && lines[1..][1..] == [] && NoteLine(n) == "N:";
    if BelowBlank(s) {
      s' := s;
    } else {
      NoteStep(parse, s, n);
      s' := AfterNote(s, n);
      SolidTogether(s.comment, n.text + "\n");
      SolidIfNotBlank(n);
    }
    BlankStep(parse, s', n);
    if BelowBlank(s) {
      BlankStep(parse, s, n);
    }
    assert Run(parse, s', []) == Some(s');
    assert Run(parse, s', lines[1..]) == Some(s');
  }

  /** They start a comment; at most a newline is added to the explanation, which makes no difference. */
  lemma {:induction false} CommentStarts(parse: Parser, s: State, lines: seq<string>) returns (s': State)
    requires !s.inComment && lines == ["N:", "N:"]
    ensures Run(parse, s, lines) == Some(s') && BelowBlank(s')
    ensures s' == s.(inComment := true, previous := s'.previous, explanation := s'.explanation)
    ensures Strip(s'.explanation) == Strip(s.explanation) && (s.explanation == "" ==> s'.explanation == "")
  {
    var n := Note(0, "");
    assert lines[1..] == ["N:"] && lines[1..][1..] == [] && NoteLine(n) == "N:";
    var next := s;
    if BelowBlank(s) {
      BlankStep(parse, s, n);
      next := s.(inComment := true);
    } else {
      NoteStep(parse, s, n);
      next := AfterNote(s, n);
      NewlineAfter(s.explanation);
      assert n.text + "\n" == "\n";
    }
    BlankStep(parse, next, n);
    s' := next.(inComment := true);
    assert Run(parse, s', []) == Some(s');
    assert Run(parse, next, lines[1..]) == Some(s');
  }

  lemma {:induction false} CommentRead(parse: Parser, s: State, comment: seq<Note>) returns (s': State, before: string)
    requires Between(s) && TextsOk(comment)
    ensures Run(parse, s, CommentLines(comment)) == Some(s') && BeforeTag(s, s', before, comment)
  {
    if comment == [] {
      s', before := s, s.comment;
      assert s.comment + "" == s.comment;
    } else {
      var lines := ["N:", "N:"];
      var start: State;
      if s.inComment {
        start := CommentGoesOn(parse, s, lines);
      } else {
        start := CommentStarts(parse, s, lines);
      }
      before := start.comment;
      s' := CommentNotesRead(parse, start, comment);
      RunAppend(parse, s, lines, NoteLines(comment));
    }
  }

  lemma {:induction false} TagRead(parse: Parser, s: State, line: string, t: Tag)
    requires PlainLine(line) && parse(line) == Full(t)
    ensures Step(parse, s, line) == Some(State(
      s.done + Listed(Explained(s.tag, s.explanation)),
      Some(t.(explanation := "", comment := Strip(s.comment))), Some(line), false,
        if s.tag.Some? then "" else s.explanation, ""))
  {
    assert Strip(line) == line;
    assert StartsWith("N:", "N:");
  }

  /** A repeated tag line after a blank line changes nothing that matters. */
  lemma {:induction false} RepeatRead(parse: Parser, s: State, line: string) returns (s': State)
    requires PlainLine(line) && parse(line) == Repeated && !s.inComment && s.explanation == "" && !BelowBlank(s)
    requires s.tag.Some? && s.tag.value.explanation == ""
    ensures Run(parse, s, ["N:", line]) == Some(s') && s' == s.(previous := Some(line))
  {
    var blank := Note(0, "");
    NoteStep(parse, s, blank);
    var next := AfterNote(s, blank);
    assert Strip(line) == line && StartsWith("N:", "N:");
    s' := s.(previous := Some(line));
    assert Step(parse, next, line) == Some(s');
    assert ["N:", line][1..] == [line] && [line][1..] == [];
    assert Run(parse, next, [line]) == Some(s');
  }

  function TagLines(e: Entry): seq<string> {
    [e.line] + (if e.repeated.Some? then ["N:", e.repeated.value] else [])
  }

  lemma {:induction false} TagLinesRead(parse: Parser, s: State, e: Entry) returns (s': State)
    requires EntryOk(parse, e) && (s.tag.None? ==> s.explanation == "")
    ensures Run(parse, s, TagLines(e)) == Some(s')
    ensures s'.done == Finish(s) && s'.tag == Some(e.tag.(explanation := "", comment := Strip(s.comment)))
    ensures !s'.inComment && s'.comment == "" && s'.explanation == "" && !BelowBlank(s')
  {
    TagRead(parse, s, e.line, e.tag);
    s' := Step(parse, s, e.line).value;
    assert [e.line][1..] == [];
    assert Run(parse, s, [e.line]) == Some(s');
    assert StartsWith("N:", "N:");
    if e.repeated.Some? {
      RunAppend(parse, s, [e.line], ["N:", e.repeated.value]);
      s' := RepeatRead(parse, s', e.repeated.value);
    } else {
      assert TagLines(e) == [e.line];
    }
  }

  lemma EntryLines(e: Entry)
    ensures RenderEntry(e) == CommentLines(e.comment) + TagLines(e) + NoteLines(e.explanation)
  {
  }

  /** The tag that is read from an entry, if `before` was kept before its comment. */
  function ReadTag(before: string, e: Entry): Tag {
    e.tag.(comment := Strip(before + Text(Collapse(true, e.comment))),
      explanation := Strip(Text(Told(false, e.explanation))))
  }

  function ListedRead(before: string, e: Entry): seq<Tag> {
    if IsMasked(e) then [] else [ReadTag(before, e)]
  }

  /** Whether the entry is recovered when some text was kept before it or not. */
  ghost predicate Recovered(kept: bool, e: Entry) {
    IsMasked(e) || (!kept && Unbroken(e.explanation) && Unbroken(SkipBlank(e.comment)))
  }

  lemma {:induction false} RecoveredExactly(before: string, e: Entry)
    requires TextsOk(e.comment) && TextsOk(e.explanation)
    ensures |ListedRead(before, e)| == |Expected([e])|
    ensures ListedRead(before, e) == Expected([e]) <==> Recovered(Solid(before) > 0, e)
  {
    hide Strip, Text, Collapse, Told, Solid, SkipBlank, Unbroken;
    CommentSurvives(before, e.comment);
    ExplanationSurvives(e.explanation);
    assert [e][1..] == [];
    var read, own := ReadTag(before, e), TagOf(e);
    assert read == own <==> read.comment == own.comment && read.explanation == own.explanation;
    assert [read] == [own] <==> read == own by {
      assert [read][0] == read && [own][0] == own;
    }
  }

  /** What is kept of an explanation for the next comment. */
  function Kept(e: Entry): string {
    var leak := Leak(false, e.explanation);
    if leak.Some? then Text(Collapse(true, leak.value)) else ""
  }

  /** That is some text exactly if the explanation is broken. */
  lemma {:induction false} KeptExactly(e: Entry)
    requires TextsOk(e.explanation)
    ensures Solid(Kept(e)) > 0 <==> !Unbroken(e.explanation)
  {
    UnbrokenStart(e.explanation);
    ToldAndLeaked(false, e.explanation);
    if Leak(false, e.explanation).Some? {
      SolidCollapsed(true, Leak(false, e.explanation).value);
      SolidText(Leak(false, e.explanation).value);
    }
  }

  lemma {:induction false} FinishedTag(s: State, s': State, before: string, e: Entry)
    requires s.tag == Some(e.tag.(explanation := "", comment := Strip(before + Text(Collapse(true, e.comment)))))
    requires s'.done == s.done && s'.tag == s.tag && s'.explanation == Gather("", Told(false, e.explanation))
    ensures Finish(s') == s.done + ListedRead(before, e)
  {
    GatherText(Told(false, e.explanation));
    assert Explained(s'.tag, s'.explanation) == Some(ReadTag(before, e));
  }

  /** Reading an entry finishes the tag above it, and leaves its own tag with what was kept for it. */
  lemma {:induction false} EntryRead(parse: Parser, s: State, e: Entry) returns (s': State, before: string)
    requires EntryOk(parse, e) && Between(s)
    ensures Run(parse, s, RenderEntry(e)) == Some(s') && Between(s') && s'.comment == Kept(e)
    ensures Finish(s') == Finish(s) + ListedRead(before, e)
    ensures Solid(before) == Solid(s.comment) && (e.comment == [] ==> before == s.comment)
  {
    var s1: State;
    s1, before := CommentRead(parse, s, e.comment);
    var s2 := TagLinesRead(parse, s1, e);
    s' := NotesRead(parse, s2, e.explanation);
    assert "" + Kept(e) == Kept(e);
    FinishedTag(s2, s', before, e);
    EntryLines(e);
    RunAppend(parse, s, CommentLines(e.comment), TagLines(e));
    RunAppend(parse, s, CommentLines(e.comment) + TagLines(e), NoteLines(e.explanation));
    assert Finish(s1) == Finish(s);
  }

  lemma {:induction false} ExpectedFirst(report: seq<Entry>)
    requires report != []
    ensures Expected(report) == Expected([report[0]]) + Expected(report[1..])
  {
    assert [report[0]][1..] == [];
  }

  lemma {:induction false} SameParts(a: seq<Tag>, b: seq<Tag>, a': seq<Tag>, b': seq<Tag>)
    requires |a| == |a'|
    ensures a + b == a' + b' <==> a == a' && b == b'
  {
    if a + b == a' + b' {
      assert a == (a + b)[..|a|] && a' == (a' + b')[..|a|];
      assert b == (a + b)[|a|..] && b' == (a' + b')[|a|..];
    }
  }

  /** Readable, when some text was kept before the report or not. */
  ghost predicate ReadableAfter(kept: bool, report: seq<Entry>)
    decreases report
  {
    report == [] || (Recovered(kept, report[0]) && ReadableAfter(!Unbroken(report[0].explanation), report[1..]))
  }

  ghost predicate RecoveredAt(kept: bool, report: seq<Entry>, i: int)
    requires 0 <= i < |report|
  {
    Recovered(if i == 0 then kept else !Unbroken(report[i - 1].explanation), report[i])
  }

  lemma RecoveredBehind(kept: bool, report: seq<Entry>, i: int)
    requires 0 < i < |report|
    ensures RecoveredAt(kept, report, i) <==> RecoveredAt(!Unbroken(report[0].explanation), report[1..], i - 1)
  {
  }

  lemma {:induction false} ReadableEach(kept: bool, report: seq<Entry>)
    ensures ReadableAfter(kept, report) <==> forall i :: 0 <= i < |report| ==> RecoveredAt(kept, report, i)
    decreases report
  {
    if report != [] {
      var rest, broken := report[1..], !Unbroken(report[0].explanation);
      ReadableEach(broken, rest);
      assert RecoveredAt(kept, report, 0) <==> Recovered(kept, report[0]);
      if ReadableAfter(kept, report) {
        forall i | 0 <= i < |report|
          ensures RecoveredAt(kept, report, i)
        {
          if i > 0 {
            RecoveredBehind(kept, report, i);
          }
        }
      } else if RecoveredAt(kept, report, 0) {
        var i :| 0 <= i < |rest| && !RecoveredAt(broken, rest, i);
        RecoveredBehind(kept, report, i + 1);
      }
    }
  }

  lemma {:induction false} LinesStep(parse: Parser, s: State, next: State, s': State, report: seq<Entry>,
                                     first: seq<Tag>, rest: seq<Tag>)
    requires report != [] && Run(parse, s, RenderEntry(report[0])) == Some(next)
    requires Run(parse, next, Render(report[1..])) == Some(s')
    requires Finish(next) == Finish(s) + first && Finish(s') == Finish(next) + rest
    ensures Run(parse, s, Render(report)) == Some(s') && Finish(s') == Finish(s) + (first + rest)
  {
    hide Run, RenderEntry, Finish;
    RunAppend(parse, s, RenderEntry(report[0]), Render(report[1..]));
  }

  lemma {:induction false} TagsStep(kept: bool, report: seq<Entry>, first: seq<Tag>, rest: seq<Tag>)
    requires report != [] && |first| == |Expected([report[0]])|
    requires first == Expected([report[0]]) <==> Recovered(kept, report[0])
    requires rest == Expected(report[1..]) <==> ReadableAfter(!Unbroken(report[0].explanation), report[1..])
    ensures first + rest == Expected(report) <==> ReadableAfter(kept, report)
  {
    hide Recovered, Unbroken;
    ExpectedFirst(report);
    SameParts(first, rest, Expected([report[0]]), Expected(report[1..]));
  }

  lemma {:induction false} ReportRead(parse: Parser, s: State, report: seq<Entry>) returns (s': State, tags: seq<Tag>)
    requires Between(s) && forall e :: e in report ==> EntryOk(parse, e)
    ensures Run(parse, s, Render(report)) == Some(s') && Finish(s') == Finish(s) + tags
    ensures tags == Expected(report) <==> ReadableAfter(Solid(s.comment) > 0, report)
    decreases report
  {
    if report == [] {
      s', tags := s, [];
      assert Finish(s) + [] == Finish(s);
    } else {
      hide *;
      var next, before := EntryRead(parse, s, report[0]);
      EntryOkTexts(parse, report[0]);
      RecoveredExactly(before, report[0]);
      KeptExactly(report[0]);
      var rest: seq<Tag>;
      s', rest := ReportRead(parse, next, report[1..]);
      tags := ListedRead(before, report[0]) + rest;
      LinesStep(parse, s, next, s', report, ListedRead(before, report[0]), rest);
      TagsStep(Solid(s.comment) > 0, report, ListedRead(before, report[0]), rest);
    }
  }

  lemma EntryOkTexts(parse: Parser, e: Entry)
    requires EntryOk(parse, e)
    ensures TextsOk(e.comment) && TextsOk(e.explanation)
  {
  }

  // ----- reading a file -----

  predicate NoMasked(tags: seq<Tag>) {
    forall t :: t in tags ==> t.severity != Masked
  }

  lemma {:induction false} RunHasNoMasked(parse: Parser, s: State, lines: seq<string>)
    requires NoMasked(s.done) && Run(parse, s, lines).Some?
    ensures NoMasked(Finish(Run(parse, s, lines).value))
    decreases lines
  {
    if lines != [] {
      RunHasNoMasked(parse, Step(parse, s, lines[0]).value, lines[1..]);
    }
  }

  predicate BadLine(parse: Parser, line: string) {
    !StartsWith(Strip(line), "N:") && parse(Strip(line)) == Unparsable
  }

  lemma {:induction false} RunFails(parse: Parser, s: State, lines: seq<string>)
    ensures Run(parse, s, lines).None? <==> exists line :: line in lines && BadLine(parse, line)
    decreases lines
  {
    if lines != [] {
      assert StartsWith("N:", "N:");
      assert lines == [lines[0]] + lines[1..];
      if !BadLine(parse, lines[0]) {
        RunFails(parse, Step(parse, s, lines[0]).value, lines[1..]);
      }
    }
  }

  /** The lines are those of this report. */
  ghost predicate IsReport(parse: Parser, report: seq<Entry>, lines: seq<string>) {
    lines == Render(report) && forall e :: e in report ==> EntryOk(parse, e)
  }

  lemma {:induction false} ReadableExactly(report: seq<Entry>)
    ensures ReadableAfter(false, report) <==> Readable(report)
  {
    hide Unbroken, SkipBlank;
    ReadableEach(false, report);
    assert forall i :: 0 <= i < |report| ==> (EntryReadable(report, i) <==> RecoveredAt(false, report, i));
  }

  /** From the lines of a report its tags are recovered, each with its own comment and explanation, if and only if the
      report is readable. */
  lemma {:induction false} ReportRecovered(parse: Parser, report: seq<Entry>, lines: seq<string>)
    requires IsReport(parse, report, lines)
    ensures Run(parse, START, lines).Some?
    ensures Finish(Run(parse, START, lines).value) == Expected(report) <==> Readable(report)
  {
    hide Run, Render, Readable, ReadableAfter, Expected, EntryOk;
    assert Finish(START) == [] && Solid(START.comment) == 0;
    var s, tags := ReportRead(parse, START, report);
    assert [] + tags == tags;
    ReadableExactly(report);
  }

  lemma StripTrimmed(text: string)
    requires Trimmed(text)
    ensures Strip(text) == text
  {
  }

  /** Four notes, the two in the middle blank. */
  predicate Broken(notes: seq<Note>) {
    |notes| == 4 && !Blank(notes[0]) && Blank(notes[1]) && Blank(notes[2]) && !Blank(notes[3])
  }

  lemma {:induction false} BrokenParts(notes: seq<Note>)
    requires Broken(notes) && TextsOk(notes)
    ensures Strip(Text(Told(false, notes))) == notes[0].text && !Unbroken(notes)
    ensures Leak(false, notes).Some? && Text(Collapse(true, Leak(false, notes).value)) == notes[3].text + "\n"
  {
    var a, b, d := notes[0], notes[1], notes[3];
    var n1, n2, n3 := notes[1..], notes[2..], notes[3..];
    assert n1[1..] == n2 && n2[1..] == n3 && n3[1..] == [];
    assert BlankPair(notes, 2);
    assert Told(true, n2) == [] && Leak(true, n2) == Some(n3);
    assert Told(false, n1) == [b] + [] && Leak(false, n1) == Some(n3);
    var told := Told(false, notes);
    assert told == [a] + [b] && ([a] + [b])[1..] == [b] && [b][1..] == [];
    assert Text([b]) == "\n";
    assert Text(told) == a.text + "\n" + "\n";
    NewlineAfter(a.text + "\n");
    NewlineAfter(a.text);
    StripTrimmed(a.text);
    assert Collapse(true, n3) == [d] + [];
  }

  lemma {:induction false} SplitTags(e: Entry, f: Entry, a: string, d: string)
    requires !IsMasked(e) && !IsMasked(f) && e.comment == f.comment == f.explanation == [] && Trimmed(d)
    requires Strip(Text(Told(false, e.explanation))) == a && Kept(e) == d + "\n"
    ensures ListedRead("", e) == [TagOf(e).(explanation := a)]
    ensures ListedRead(Kept(e), f) == [TagOf(f).(comment := d)]
  {
    NewlineAfter(d);
    StripTrimmed(d);
    var none: seq<Note> := [];
    assert Text(Collapse(true, none)) == "" && Text(Told(false, none)) == "";
    assert "" + "" == "" && Kept(e) + "" == Kept(e);
  }

  lemma {:induction false} TwoEntries(parse: Parser, s: State, report: seq<Entry>) returns (s': State)
    requires Between(s) && s.comment == "" && |report| == 2 && EntryOk(parse, report[0]) && EntryOk(parse, report[1])
    requires report[0].comment == report[1].comment == []
    ensures Run(parse, s, Render(report)) == Some(s')
    ensures Finish(s') == Finish(s) + (ListedRead("", report[0]) + ListedRead(Kept(report[0]), report[1]))
  {
    var e, f := report[0], report[1];
    assert report[1..] == [f] && [f][1..] == [];
    var lines := RenderEntry(f);
    assert Render([f]) == lines + [] == lines;
    hide *;
    var s1, before := EntryRead(parse, s, e);
    var kept: string;
    s', kept := EntryRead(parse, s1, f);
    LinesStep(parse, s, s1, s', report, ListedRead("", e), ListedRead(Kept(e), f));
  }

  lemma {:induction false} BrokenEntry(parse: Parser, report: seq<Entry>)
    requires report != [] && EntryOk(parse, report[0]) && !IsMasked(report[0]) && Broken(report[0].explanation)
    ensures !Readable(report) && Trimmed(report[0].explanation[3].text)
    ensures Strip(Text(Told(false, report[0].explanation))) == report[0].explanation[0].text
    ensures Kept(report[0]) == report[0].explanation[3].text + "\n"
  {
    BrokenParts(report[0].explanation);
    assert !EntryReadable(report, 0);
  }

  /** Two blank lines in an explanation are taken for the start of a comment. So from this report the rest of the
      explanation is lost to its tag, and becomes the comment of the next one. */
  lemma {:induction false} BlankLinesSplit(parse: Parser, report: seq<Entry>)
    requires |report| == 2 && EntryOk(parse, report[0]) && EntryOk(parse, report[1])
    requires !IsMasked(report[0]) && !IsMasked(report[1]) && Broken(report[0].explanation)
    requires report[0].comment == report[1].comment == report[1].explanation == []
    ensures
      var r, told := Run(parse, START, Render(report)), report[0].explanation;
      && r.Some?
      && Finish(r.value) == [TagOf(report[0]).(explanation := told[0].text), TagOf(report[1]).(comment := told[3].text)]
    ensures !Readable(report)
  {
    hide Run, Render, Told, Leak, Collapse, Strip, Text, EntryOk, Kept, ListedRead, TagOf, Unbroken, SkipBlank;
    BrokenEntry(parse, report);
    SplitTags(report[0], report[1], report[0].explanation[0].text, report[0].explanation[3].text);
    assert START.comment == "" && Finish(START) == [];
    var s := TwoEntries(parse, START, report);
  }

  /** Reads the lines one by one. From a report it recovers each tag that is not masked, in order, with its own comment
      and explanation, if and only if the report is readable. It fails exactly when a line is neither a note nor a
      tag. */
  method ParseOutput(lines: seq<string>, parse: Parser) returns (r: Result<seq<Tag>, string>)
    ensures r.Err? <==> exists line :: line in lines && BadLine(parse, line)
    ensures r.Ok? ==> NoMasked(r.value)
    ensures r.Ok? ==> Run(parse, START, lines).Some? && r.value == Finish(Run(parse, START, lines).value)
    ensures forall report :: IsReport(parse, report, lines) ==>
      r.Ok? && (r.value == Expected(report) <==> Readable(report))
  {
    forall report | IsReport(parse, report, lines)
      ensures Run(parse, START, lines).Some?
      ensures Finish(Run(parse, START, lines).value) == Expected(report) <==> Readable(report)
    {
      ReportRecovered(parse, report, lines);
    }
    RunFails(parse, START, lines);
    if Run(parse, START, lines).Some? {
      RunHasNoMasked(parse, START, lines);
    }
    r := ParseLines(lines, parse);
  }

  method ParseLines(lines: seq<string>, parse: Parser) returns (r: Result<seq<Tag>, string>)
    ensures r.Err? <==> Run(parse, START, lines).None?
    ensures r.Ok? ==> r.value == Finish(Run(parse, START, lines).value)
  {
    var tags: seq<Tag> := [];
    var tag: Option<Tag> := None;
    var previous: Option<string> := None;
    var inComment, explanation, comment := false, "", "";
    ghost var s := START;
    assert lines[0..] == lines;
    for i := 0 to |lines|
      invariant s == State(s.done, tag, previous, inComment, explanation, comment) && tags == s.done + Listed(tag)
      invariant Run(parse, s, lines[i..]) == Run(parse, START, lines)
    {
      assert lines[i..][0] == lines[i] && lines[i..][1..] == lines[i + 1..];
      ghost var next := Step(parse, s, lines[i]);
      var line := Strip(lines[i]);
      if line == "N:" && previous == Some("N:") {
        inComment := true;
      } else if StartsWith(line, "N:") {
        var parsed := LeftStrip(StripMarker(line)) + "\n";
        if inComment {
          comment := comment + parsed;
        } else if explanation != "" || parsed != "\n" {
          explanation := explanation + parsed;
        }
      } else {
        tags, tag, explanation := SetExplanation(s.done, tags, tag, explanation);
        var parsed := parse(line);
        if parsed.Unparsable? {
          return Err(line);
        }
        if parsed.Full? {
          tag := Some(parsed.tag.(explanation := "", comment := Strip(comment)));
          comment := "";
          inComment := false;
          s := s.(done := tags);
          if tag.value.severity != Masked {
            tags := tags + [tag.value];
          }
        }
      }
      previous := Some(line);
      s := State(s.done, tag, previous, inComment, explanation, comment);
      assert next == Some(s);
    }
    assert lines[|lines|..] == [];
    tags, tag, explanation := SetExplanation(s.done, tags, tag, explanation);
    r := Ok(tags);
  }

  /** Gives the explanation to the last tag, which is also the last of the list unless it is masked. */
  method SetExplanation(ghost done: seq<Tag>, tags: seq<Tag>, tag: Option<Tag>, explanation: string)
    returns (tags': seq<Tag>, tag': Option<Tag>, explanation': string)
    requires tags == done + Listed(tag)
    ensures tag' == Explained(tag, explanation) && tags' == done + Listed(tag')
    ensures explanation' == if tag.Some? then "" else explanation
  {
    tags', tag', explanation' := tags, tag, explanation;
    if tag.Some? {
      tag' := Some(tag.value.(explanation := Strip(explanation)));
      if tag.value.severity != Masked {
        tags' := tags[|tags| - 1 := tag'.value];
      }
      explanation' := "";
    }
  }
}
