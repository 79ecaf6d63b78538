/** Text in lines, as the pipe and the audit both write it: a newline ends one, and nothing else
    does (src/stdio.rs:402-409; src/audit.rs:94-112). */
module Lines {

  /** What can stand on one line. JSON escapes a newline, so anything in JSON can. */
  type Text = s: string | '\n' !in s

  /** What a reader has made of some output: the lines that are complete, and the one that is
      not. */
  datatype Read = Read(lines: seq<string>, rest: string)

  function Split(out: string): Read {
    if out == "" then Read([], "")
    else
      var before := Split(out[..|out| - 1]);
      if out[|out| - 1] == '\n' then Read(before.lines + [before.rest], "")
      else Read(before.lines, before.rest + [out[|out| - 1]])
  }

  lemma {:induction false} SplitGoesOn(out: string, piece: string)
    requires '\n' !in piece
    ensures Split(out + piece) == Read(Split(out).lines, Split(out).rest + piece)
  {
    if piece == "" {
      assert out + piece == out;
      assert Split(out).rest + piece == Split(out).rest;
    } else {
      var init := piece[..|piece| - 1];
      assert (out + piece)[..|out + piece| - 1] == out + init;
      assert forall c :: c in init ==> c in piece;
      SplitGoesOn(out, init);
      assert Split(out).rest + init + [piece[|piece| - 1]] == Split(out).rest + piece;
    }
  }

  lemma SplitAtNewline(out: string)
    ensures Split(out + "\n") == Read(Split(out).lines + [Split(out).rest], "")
  {
    assert (out + "\n")[..|out + "\n"| - 1] == out;
  }

  /** A line more, after whatever was left hanging. */
  lemma SplitLine(out: string, text: Text)
    ensures Split(out + (text + "\n")) == Read(Split(out).lines + [Split(out).rest + text], "")
  {
    SplitGoesOn(out, text);
    SplitAtNewline(out + text);
    assert out + (text + "\n") == out + text + "\n";
  }

  /** Part of a line, short of its newline. */
  lemma SplitPiece(out: string, text: Text, n: nat)
    requires n <= |text|
    ensures Split(out + (text + "\n")[..n]) == Read(Split(out).lines, Split(out).rest + text[..n])
  {
    assert (text + "\n")[..n] == text[..n];
    assert forall c :: c in text[..n] ==> c in text;
    SplitGoesOn(out, text[..n]);
  }

  /** Whatever comes later, the lines that were complete stay as they were: text cut short
      anywhere still gives every line before the cut. */
  lemma {:induction false} CutKeepsLinesBefore(out: string, more: string)
    ensures Split(out).lines <= Split(out + more).lines
    decreases |more|
  {
    if more == "" {
      assert out + more == out;
    } else {
      assert (out + more)[..|out + more| - 1] == out + more[..|more| - 1];
      CutKeepsLinesBefore(out, more[..|more| - 1]);
    }
  }
}
