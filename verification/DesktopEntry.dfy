/** Reading back the program of a desktop entry's Exec key: string escapes undone, then quoting, as in
    "Possible value types" and "The Exec key" of the freedesktop.org Desktop Entry Specification. */
module DesktopEntry {
  import opened Common

  // Reading.

  function Prepend(c: string, s: Option<string>): Option<string> {
    if s.Some? then Some(c + s.value) else None
  }

  /** What an escape stands for; an unknown one stands for itself. */
  function Escaped(c: char): string {
    match c
    case 's' => " "
    case 'n' => "\n"
    case 't' => "\t"
    case 'r' => "\r"
    case '\\' => "\\"
    case other => ['\\', other]
  }

  function Unescape(s: string): Option<string> {
    if s == [] then Some([])
    else if s[0] != '\\' then Prepend([s[0]], Unescape(s[1..]))
    else if |s| == 1 then None
    else Prepend(Escaped(s[1]), Unescape(s[2..]))
  }

  /** The quoted argument after its opening quote. */
  function Unquote(s: string): Option<string> {
    if s == [] then None
    else if s[0] == '"' then Some([])
    else if s[0] != '\\' then Prepend([s[0]], Unquote(s[1..]))
    else if |s| == 1 then None
    else Prepend([s[1]], Unquote(s[2..]))
  }

  function FirstWord(s: string): string {
    if s == [] || s[0] == ' ' then [] else [s[0]] + FirstWord(s[1..])
  }

  function ExecProgram(value: string): Option<string> {
    match Unescape(value)
    case None => None
    case Some(u) => if u != [] && u[0] == '"' then Unquote(u[1..]) else Some(FirstWord(u))
  }

  // Writing, as the installer does.

  predicate Special(c: char) {
    c == '\\' || c == '"' || c == '`' || c == '$'
  }

  function Quote(p: string): string {
    if p == [] then [] else (if Special(p[0]) then ['\\', p[0]] else [p[0]]) + Quote(p[1..])
  }

  function Escape(q: string): string {
    if q == [] then [] else (if q[0] == '\\' then "\\\\" else [q[0]]) + Escape(q[1..])
  }

  function ExecValue(p: string): string {
    "\"" + Escape(Quote(p)) + "\""
  }

  // Reading undoes writing.

  lemma PrependTwice(a: string, b: string, s: Option<string>)
    ensures Prepend(a, Prepend(b, s)) == Prepend(a + b, s)
  {
    if s.Some? { assert a + (b + s.value) == a + b + s.value; }
  }

  lemma PrependNothing(s: Option<string>)
    ensures Prepend([], s) == s
  {
    if s.Some? { assert [] + s.value == s.value; }
  }

  lemma {:induction false} UnescapeUndoes(q: string, rest: string)
    ensures Unescape(Escape(q) + rest) == Prepend(q, Unescape(rest))
    decreases |q|
  {
    if q == [] { assert Escape(q) + rest == rest; PrependNothing(Unescape(rest)); }
    else {
      var head, tail := if q[0] == '\\' then "\\\\" else [q[0]], Escape(q[1..]) + rest;
      assert Escape(q) + rest == head + tail && (head + tail)[|head|..] == tail;
      UnescapeUndoes(q[1..], rest);
      PrependTwice([q[0]], q[1..], Unescape(rest));
      assert q == [q[0]] + q[1..];
    }
  }

  lemma {:induction false} UnquoteUndoes(p: string, rest: string)
    ensures Unquote(Quote(p) + rest) == Prepend(p, Unquote(rest))
    decreases |p|
  {
    if p == [] { assert Quote(p) + rest == rest; PrependNothing(Unquote(rest)); }
    else {
      var head, tail := if Special(p[0]) then ['\\', p[0]] else [p[0]], Quote(p[1..]) + rest;
      assert Quote(p) + rest == head + tail && (head + tail)[|head|..] == tail;
      UnquoteUndoes(p[1..], rest);
      PrependTwice([p[0]], p[1..], Unquote(rest));
      assert p == [p[0]] + p[1..];
    }
  }

  /** How many backslashes end `s`. */
  function Trailing(s: string): nat {
    if s == [] || s[|s| - 1] != '\\' then 0 else 1 + Trailing(s[..|s| - 1])
  }

  lemma {:induction false} TrailingSplit(a: string, s: string)
    ensures Trailing(a + s) == if Trailing(s) == |s| then Trailing(a) + |s| else Trailing(s)
    ensures Trailing(s) <= |s|
    decreases |s|
  {
    if s == [] { assert a + s == a; }
    else {
      var n := |s| - 1;
      assert (a + s)[..|a + s| - 1] == a + s[..n];
      TrailingSplit(a, s[..n]);
    }
  }

  /** Escapes are well formed exactly when the text does not end inside one: an even number of
      backslashes ends it. */
  lemma {:induction false} UnescapeFailsExactly(s: string)
    ensures Unescape(s).None? <==> Trailing(s) % 2 == 1
    decreases |s|
  {
    if s != [] {
      if s[0] != '\\' {
        TrailingSplit([s[0]], s[1..]);
        assert s == [s[0]] + s[1..];
        UnescapeFailsExactly(s[1..]);
      } else if |s| >= 2 {
        TrailingSplit(s[..2], s[2..]);
        assert s == s[..2] + s[2..];
        assert s[..2][..1] == [s[0]];
        UnescapeFailsExactly(s[2..]);
      }
    }
  }

  /** For every path and whatever follows the quoted program, the path is read back exactly when what
      follows does not end inside an escape. */
  lemma ExecRoundTrip(p: string, rest: string)
    ensures ExecProgram(ExecValue(p) + rest) == if Trailing(rest) % 2 == 0 then Some(p) else None
  {
    var quoted := "\"" + Quote(p) + "\"";
    assert Escape(quoted) == ExecValue(p) by { EscapeSplits("\"" + Quote(p), "\""); EscapeSplits("\"", Quote(p)); }
    UnescapeUndoes(quoted, rest);
    UnescapeFailsExactly(rest);
    if Unescape(rest).Some? {
      var tail := Unescape(rest).value;
      assert (quoted + tail)[1..] == Quote(p) + ("\"" + tail);
      UnquoteUndoes(p, "\"" + tail);
      assert p + [] == p;
    }
  }

  lemma {:induction false} EscapeSplits(a: string, b: string)
    ensures Escape(a + b) == Escape(a) + Escape(b)
    decreases |a|
  {
    if a == [] { assert a + b == b; }
    else {
      assert (a + b)[1..] == a[1..] + b;
      EscapeSplits(a[1..], b);
    }
  }

  lemma {:induction false} QuoteSplits(a: string, b: string)
    ensures Quote(a + b) == Quote(a) + Quote(b)
    decreases |a|
  {
    if a == [] { assert a + b == b; }
    else {
      assert (a + b)[1..] == a[1..] + b;
      QuoteSplits(a[1..], b);
    }
  }

  /** A quoted program cut short before its closing quote is no program. */
  lemma CutShortIsNone(p: string)
    ensures ExecProgram("\"" + Escape(Quote(p))) == None
  {
    var open := "\"" + Quote(p);
    EscapeSplits("\"", Quote(p));
    UnescapeUndoes(open, []);
    assert Escape(open) + [] == "\"" + Escape(Quote(p));
    assert open + [] == open && open[1..] == Quote(p);
    UnquoteUndoes(p, []);
    assert Quote(p) + [] == Quote(p);
  }

  // Whole entries.

  function WithoutReturn(line: string): string {
    if line != [] && line[|line| - 1] == '\r' then line[..|line| - 1] else line
  }

  function NewlineAt(text: string): (i: nat)
    ensures i <= |text| && (i < |text| ==> text[i] == '\n') && forall j | 0 <= j < i :: text[j] != '\n'
  {
    if text == [] || text[0] == '\n' then 0 else 1 + NewlineAt(text[1..])
  }

  /** Lines end with a newline, or a carriage return and a newline; the last may have neither. */
  function Lines(text: string): seq<string>
    decreases |text|
  {
    var i := NewlineAt(text);
    if text == [] then []
    else if i == |text| then [text]
    else [WithoutReturn(text[..i])] + Lines(text[i + 1..])
  }

  function Section(line: string, main: bool): bool {
    if line != [] && line[0] == '[' then line == "[Desktop Entry]" else main
  }

  predicate IsExec(line: string, main: bool) {
    main && "Exec=" <= line
  }

  /** The program of the first Exec key in the main section. */
  function EntryProgram(lines: seq<string>, main: bool): Option<string> {
    if lines == [] then None
    else if IsExec(lines[0], main) then ExecProgram(lines[0][5..])
    else EntryProgram(lines[1..], Section(lines[0], main))
  }

  /** Whether the main section is open after `lines`, when no Exec key of it was among them. */
  function Opened(lines: seq<string>, main: bool): Option<bool> {
    if lines == [] then Some(main)
    else if IsExec(lines[0], main) then None
    else Opened(lines[1..], Section(lines[0], main))
  }

  lemma {:induction false} SkipsBefore(before: seq<string>, rest: seq<string>, main: bool)
    requires Opened(before, main).Some?
    ensures EntryProgram(before + rest, main) == EntryProgram(rest, Opened(before, main).value)
    decreases |before|
  {
    if before == [] { assert before + rest == rest; }
    else {
      assert (before + rest)[1..] == before[1..] + rest;
      SkipsBefore(before[1..], rest, Section(before[0], main));
    }
  }

  /** A line as the installer writes it: no newline in it, no carriage return at its end. */
  predicate Plain(line: string) {
    '\n' !in line && (line == [] || line[|line| - 1] != '\r')
  }

  predicate AllPlain(lines: seq<string>) {
    lines == [] || (Plain(lines[0]) && AllPlain(lines[1..]))
  }

  function Join(lines: seq<string>): string {
    if lines == [] then [] else lines[0] + "\n" + Join(lines[1..])
  }

  lemma LinesStart(line: string, rest: string)
    requires '\n' !in line
    ensures Lines(line + "\n" + rest) == [WithoutReturn(line)] + Lines(rest)
  {
    var text := line + "\n" + rest;
    assert text[|line|] == '\n';
    assert forall j | 0 <= j < |line| :: text[j] == line[j];
    assert NewlineAt(text) == |line|;
    assert text[..|line|] == line && text[|line| + 1..] == rest;
  }

  lemma PlainFirst(first: string, text: string, lines: seq<string>)
    requires Plain(first) && Lines(text) == lines
    ensures Lines(first + "\n" + text) == [first] + lines
  {
    LinesStart(first, text);
  }

  lemma ConsAssociates(first: string, more: seq<string>, lines: seq<string>)
    ensures [first] + (more + lines) == [first] + more + lines
  {
  }

  lemma {:induction false} LinesOfJoin(before: seq<string>, rest: string, lines: seq<string>)
    requires AllPlain(before) && Lines(rest) == lines
    ensures Lines(Join(before) + rest) == before + lines
    decreases |before|
  {
    if before == [] {
      assert Join(before) + rest == rest && before + lines == lines;
    } else {
      LinesOfJoin(before[1..], rest, lines);
      PlainFirst(before[0], Join(before[1..]) + rest, before[1..] + lines);
      JoinFirst(before[0], Join(before[1..]), rest);
      ConsAssociates(before[0], before[1..], lines);
      assert [before[0]] + before[1..] == before;
    }
  }

  lemma JoinFirst(first: string, more: string, rest: string)
    ensures first + "\n" + more + rest == first + "\n" + (more + rest)
  {
  }

  /** The entry the installer writes: any plain lines that open the main section, the Exec key of the
      program with its `%u` argument, and anything after. */
  function Entry(before: seq<string>, p: string, after: string): string {
    Join(before) + ("Exec=" + ExecValue(p) + " %u" + "\n" + after)
  }

  lemma {:induction false} NoNewline(p: string)
    ensures '\n' in ExecValue(p) <==> '\n' in p
  {
    QuoteKeeps(p);
    EscapeKeeps(Quote(p));
  }

  lemma {:induction false} QuoteKeeps(p: string)
    ensures '\n' in Quote(p) <==> '\n' in p
    decreases |p|
  {
    if p != [] {
      QuoteKeeps(p[1..]);
      assert p == [p[0]] + p[1..];
    }
  }

  lemma {:induction false} EscapeKeeps(q: string)
    ensures '\n' in Escape(q) <==> '\n' in q
    decreases |q|
  {
    if q != [] {
      EscapeKeeps(q[1..]);
      assert q == [q[0]] + q[1..];
    }
  }

  lemma ExecLine(value: string, rest: seq<string>)
    ensures EntryProgram(["Exec=" + value] + rest, true) == ExecProgram(value)
  {
    assert ("Exec=" + value)[5..] == value;
  }

  lemma WholePathReads(p: string, after: string)
    requires '\n' !in p
    ensures EntryProgram(Lines("Exec=" + ExecValue(p) + " %u" + "\n" + after), true) == Some(p)
  {
    var line := "Exec=" + ExecValue(p) + " %u";
    NoNewline(p);
    LinesStart(line, after);
    assert line[|line| - 1] == 'u';
    assert line == "Exec=" + (ExecValue(p) + " %u");
    ExecLine(ExecValue(p) + " %u", Lines(after));
    ExecRoundTrip(p, " %u");
    assert Trailing(" %u") == 0;
  }

  /** A newline in the path is written as it is. */
  lemma NewlineIsWritten(first: string, rest: string)
    ensures Escape(Quote(first + "\n" + rest)) == Escape(Quote(first)) + "\n" + Escape(Quote(rest))
  {
    QuoteSplits(first + "\n", rest);
    QuoteSplits(first, "\n");
    EscapeSplits(Quote(first) + "\n", Quote(rest));
    EscapeSplits(Quote(first), "\n");
    assert Quote("\n") == "\n" && Escape("\n") == "\n";
  }

  lemma Spelled(a: string, b: string, after: string)
    ensures "Exec=" + ("\"" + (a + "\n" + b) + "\"") + " %u" + "\n" + after == "Exec=\"" + a + "\n" + (b + "\" %u\n" + after)
  {
  }

  lemma CutLine(first: string, rest: string, after: string)
    requires '\n' !in first
    ensures
      Lines("Exec=" + ExecValue(first + "\n" + rest) + " %u" + "\n" + after) ==
      [WithoutReturn("Exec=\"" + Escape(Quote(first)))] + Lines(Escape(Quote(rest)) + "\" %u\n" + after)
  {
    NewlineIsWritten(first, rest);
    var a, b := Escape(Quote(first)), Escape(Quote(rest));
    Spelled(a, b, after);
    assert ExecValue(first + "\n" + rest) == "\"" + (a + "\n" + b) + "\"";
    QuoteKeeps(first);
    EscapeKeeps(Quote(first));
    LinesStart("Exec=\"" + a, b + "\" %u\n" + after);
  }

  lemma CutProgram(first: string, more: seq<string>)
    ensures EntryProgram([WithoutReturn("Exec=\"" + Escape(Quote(first)))] + more, true) == None
  {
    StrippedLine(first);
    var value := "\"" + Escape(Quote(WithoutReturn(first)));
    assert "Exec=\"" + Escape(Quote(WithoutReturn(first))) == "Exec=" + value;
    ExecLine(value, more);
    CutShortIsNone(WithoutReturn(first));
  }

  lemma CutPathFails(p: string, after: string)
    requires '\n' in p
    ensures EntryProgram(Lines("Exec=" + ExecValue(p) + " %u" + "\n" + after), true) == None
  {
    var i := NewlineAt(p);
    var first, rest := p[..i], p[i + 1..];
    assert p == first + "\n" + rest;
    CutLine(first, rest, after);
    CutProgram(first, Lines(Escape(Quote(rest)) + "\" %u\n" + after));
  }

  /** The last character of a path is the last one written. */
  lemma LastIsKept(c: char)
    ensures var w := Escape(Quote([c])); w != [] && w[|w| - 1] == c && (c == '\r' ==> w == "\r")
  {
    assert Quote([c]) == if Special(c) then ['\\', c] else [c];
    EscapeSplits(['\\'], [c]);
    assert ['\\'] + [c] == ['\\', c];
    assert Escape([c]) == if c == '\\' then "\\\\" else [c];
  }

  /** Dropping a carriage return from the line drops it from the path. */
  lemma StrippedLine(first: string)
    ensures WithoutReturn("Exec=\"" + Escape(Quote(first))) == "Exec=\"" + Escape(Quote(WithoutReturn(first)))
  {
    if first != [] {
      var n := |first| - 1;
      var init, last := first[..n], [first[n]];
      assert first == init + last;
      QuoteSplits(init, last);
      EscapeSplits(Quote(init), Quote(last));
      LastIsKept(first[n]);
      var line := "Exec=\"" + Escape(Quote(init));
      assert "Exec=\"" + Escape(Quote(first)) == line + Escape(Quote(last));
      if first[n] == '\r' { assert (line + "\r")[..|line|] == line; }
    }
  }

  /** An entry gives back the program it was written for exactly when the path holds no newline; with
      one it gives no program at all, never another. The installer and the development launcher both
      refuse such a path, so only another writer of the entry can bring a newline here. */
  lemma EntryRoundTrip(before: seq<string>, p: string, after: string)
    requires AllPlain(before) && Opened(before, false) == Some(true)
    ensures EntryProgram(Lines(Entry(before, p, after)), false) == if '\n' in p then None else Some(p)
  {
    var exec := "Exec=" + ExecValue(p) + " %u" + "\n" + after;
    LinesOfJoin(before, exec, Lines(exec));
    SkipsBefore(before, Lines(exec), false);
    if '\n' in p { CutPathFails(p, after); } else { WholePathReads(p, after); }
  }
}
