/**
 * Joining lines into one text with "\n" (Python's "\n".join) and its
 * inverse, splitting a text at every "\n" (Python's str.split("\n")).
 */
module Text {

  predicate NoNewline(s: string) {
    forall i :: 0 <= i < |s| ==> s[i] != '\n'
  }

  lemma NoNewlineConcat(a: string, b: string)
    requires NoNewline(a) && NoNewline(b)
    ensures NoNewline(a + b)
  {
  }

  /** "\n".join(lines): the lines with one newline between neighbours; "" for no lines. */
  function Join(lines: seq<string>): (text: string)
    ensures |lines| == 1 ==> text == lines[0]
    ensures |lines| >= 1 ==> lines[0] <= text
    ensures |lines| >= 2 ==> lines[0] + "\n" <= text
    decreases |lines|
  {
    if |lines| == 0 then ""
    else if |lines| == 1 then lines[0]
    else lines[0] + "\n" + Join(lines[1..])
  }

  /** text.split("\n"): the pieces between newlines; always at least one piece. */
  function SplitLines(text: string): (pieces: seq<string>)
    ensures |pieces| >= 1
    decreases |text|
  {
    if |text| == 0 then [""]
    else if text[0] == '\n' then [""] + SplitLines(text[1..])
    else
      var rest := SplitLines(text[1..]);
      [[text[0]] + rest[0]] + rest[1..]
  }

  /** A newline-free prefix is glued onto the first piece of what follows it. */
  lemma {:induction false} SplitAfterPrefix(a: string, t: string)
    requires NoNewline(a)
    ensures SplitLines(a + t) == [a + SplitLines(t)[0]] + SplitLines(t)[1..]
    decreases |a|
  {
    if |a| == 0 {
      assert a + t == t;
      var pieces := SplitLines(t);
      assert a + pieces[0] == pieces[0];
      assert pieces == [pieces[0]] + pieces[1..];
    } else {
      assert (a + t)[0] == a[0];
      assert (a + t)[1..] == a[1..] + t;
      SplitAfterPrefix(a[1..], t);
      assert [a[0]] + (a[1..] + SplitLines(t)[0]) == a + SplitLines(t)[0];
    }
  }

  /** Splitting undoes joining, as long as no line itself holds a newline. */
  lemma {:induction false} SplitJoin(lines: seq<string>)
    requires |lines| >= 1
    requires forall i :: 0 <= i < |lines| ==> NoNewline(lines[i])
    ensures SplitLines(Join(lines)) == lines
    decreases |lines|
  {
    if |lines| == 1 {
      SplitAfterPrefix(lines[0], "");
      assert lines[0] + "" == lines[0];
    } else {
      var rest := Join(lines[1..]);
      assert Join(lines) == lines[0] + ("\n" + rest);
      SplitAfterPrefix(lines[0], "\n" + rest);
      assert ("\n" + rest)[1..] == rest;
      SplitJoin(lines[1..]);
      assert SplitLines("\n" + rest) == [""] + lines[1..];
      assert lines[0] + "" == lines[0];
    }
  }
}
