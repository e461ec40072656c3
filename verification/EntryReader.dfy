/** The desktop entry reader as the program runs it: characters taken one by one and pushed onto a
    growing string, lines scanned with a flag. */
module EntryReader {
  import opened Common
  import opened Spec = DesktopEntry

  method Unescaped(value: string) returns (r: Option<string>)
    ensures r == Unescape(value)
  {
    var unescaped, i := "", 0;
    assert value[0..] == value;
    PrependNothing(Unescape(value));
    while i < |value|
      invariant 0 <= i <= |value| && Unescape(value) == Prepend(unescaped, Unescape(value[i..]))
    {
      ghost var before, here := unescaped, value[i..];
      var c := value[i];
      i := i + 1;
      if c != '\\' {
        unescaped := unescaped + [c];
        assert here[1..] == value[i..];
        PrependTwice(before, [c], Unescape(value[i..]));
        continue;
      }
      if i == |value| { return None; }
      var e := value[i];
      i := i + 1;
      match e {
        case 's' => unescaped := unescaped + " ";
        case 'n' => unescaped := unescaped + "\n";
        case 't' => unescaped := unescaped + "\t";
        case 'r' => unescaped := unescaped + "\r";
        case '\\' => unescaped := unescaped + "\\";
        case other => unescaped := unescaped + ['\\', other];
      }
      assert here[2..] == value[i..];
      PrependTwice(before, Escaped(e), Unescape(value[i..]));
    }
    assert unescaped + [] == unescaped;
    return Some(unescaped);
  }

  method Unquoted(quoted: string) returns (r: Option<string>)
    ensures r == Unquote(quoted)
  {
    var program, i := "", 0;
    assert quoted[0..] == quoted;
    PrependNothing(Unquote(quoted));
    while i < |quoted|
      invariant 0 <= i <= |quoted| && Unquote(quoted) == Prepend(program, Unquote(quoted[i..]))
    {
      ghost var before, here := program, quoted[i..];
      var c := quoted[i];
      i := i + 1;
      if c == '"' {
        assert program + [] == program;
        return Some(program);
      }
      if c == '\\' {
        if i == |quoted| { return None; }
        c := quoted[i];
        i := i + 1;
        assert here[2..] == quoted[i..];
      } else {
        assert here[1..] == quoted[i..];
      }
      program := program + [c];
      PrependTwice(before, [c], Unquote(quoted[i..]));
    }
    return None;
  }

  /** Runs both loops, or takes the first word of a value that is not quoted. */
  method ReadExec(value: string) returns (r: Option<string>)
    ensures r == ExecProgram(value)
  {
    var unescaped := Unescaped(value);
    if unescaped.None? { return None; }
    var u := unescaped.value;
    if u != [] && u[0] == '"' { r := Unquoted(u[1..]); } else { return Some(FirstWord(u)); }
  }

  /** The program of an entry's lines. */
  method ReadEntry(lines: seq<string>) returns (r: Option<string>)
    ensures r == EntryProgram(lines, false)
  {
    var main := false;
    assert lines[0..] == lines;
    for i := 0 to |lines|
      invariant EntryProgram(lines, false) == EntryProgram(lines[i..], main)
    {
      var line := lines[i];
      assert lines[i..][1..] == lines[i + 1..];
      if line != [] && line[0] == '[' {
        main := line == "[Desktop Entry]";
      } else if main && "Exec=" <= line {
        r := ReadExec(line[5..]);
        return;
      }
    }
    return None;
  }
}
