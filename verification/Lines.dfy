/**
  Splitting a stream of characters into lines, as both ends of the streaming code do:
  `ReadString('\n')` on the gateway and `buffer.split("\n")` in the browser.
*/
module Lines {

  /** The terminated lines of a text, without their line feeds, and what follows the last line feed. */
  datatype Split = Split(lines: seq<string>, rest: string)

  function Scan(text: string): Split {
    if text == "" then Split([], "")
    else
      var before, c := Scan(text[..|text| - 1]), text[|text| - 1];
      if c == '\n' then Split(before.lines + [before.rest], "")
      else before.(rest := before.rest + [c])
  }

  lemma ScanOneMore(text: string, c: char)
    ensures Scan(text + [c]) ==
      if c == '\n' then Split(Scan(text).lines + [Scan(text).rest], "") else Scan(text).(rest := Scan(text).rest + [c])
  {
    assert (text + [c])[..|text|] == text;
  }

  /** Scanning may stop anywhere and go on from the unterminated rest. */
  lemma {:induction false} ScanResumes(a: string, b: string)
    ensures Scan(a + b).lines == Scan(a).lines + Scan(Scan(a).rest + b).lines
    ensures Scan(a + b).rest == Scan(Scan(a).rest + b).rest
  {
    var r := Scan(a).rest;
    if b == "" {
      assert a + b == a && r + b == r;
      ScanRest(a);
    } else {
      var init, c := b[..|b| - 1], b[|b| - 1];
      ScanResumes(a, init);
      ScanOneMore(a + init, c);
      ScanOneMore(r + init, c);
      assert a + b == a + init + [c] && r + b == r + init + [c];
    }
  }

  /** The rest holds no line feed. */
  lemma {:induction false} ScanRest(text: string)
    ensures '\n' !in Scan(text).rest
    ensures Scan(Scan(text).rest) == Split([], Scan(text).rest)
  {
    if text != "" {
      ScanRest(text[..|text| - 1]);
      var r := Scan(text).rest;
      if text[|text| - 1] != '\n' {
        assert r[..|r| - 1] == Scan(text[..|text| - 1]).rest;
      }
    }
  }

  lemma {:induction false} ScanUnterminated(line: string)
    requires '\n' !in line
    ensures Scan(line) == Split([], line)
  {
    if line != "" {
      var init := line[..|line| - 1];
      ScanUnterminated(init);
      assert line == init + [line[|line| - 1]];
    }
  }

  lemma ScanOneLine(line: string)
    requires '\n' !in line
    ensures Scan(line + "\n") == Split([line], "")
  {
    ScanUnterminated(line);
    assert (line + "\n")[..|line|] == line;
  }

  /** A text that starts with a terminated line. */
  lemma ScanFirstLine(line: string, text: string)
    requires '\n' !in line
    ensures Scan(line + "\n" + text) == Split([line] + Scan(text).lines, Scan(text).rest)
  {
    ScanOneLine(line);
    ScanResumes(line + "\n", text);
    assert "" + text == text;
  }

  /** A text that ends with a terminated line. */
  lemma ScanLastLine(text: string, line: string)
    requires '\n' !in line && Scan(text).rest == ""
    ensures Scan(text + line + "\n") == Split(Scan(text).lines + [line], "")
  {
    ScanOneLine(line);
    ScanResumes(text, line + "\n");
    assert text + (line + "\n") == text + line + "\n";
    assert "" + (line + "\n") == line + "\n";
  }
}
