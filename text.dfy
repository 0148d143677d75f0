/**
  Line-oriented text as the command-line entry point produces it: lines
  joined with a newline (JavaScript's `lines.join("\n")`), text split back
  at every newline (`text.split("\n")`), and the text a stream holds after a
  sequence of writes (what a reader of the stream sees, chunk after chunk).
 */
module Text {

  const Newline: char := '\n'

  /** A line: text without a newline in it. */
  predicate SingleLine(s: string) {
    Newline !in s
  }

  predicate AllSingleLine(lines: seq<string>) {
    forall i :: 0 <= i < |lines| ==> SingleLine(lines[i])
  }

  /** A write that ends a line: non-empty, with a newline as its last character. */
  predicate EndsLine(w: string) {
    |w| > 0 && w[|w| - 1] == Newline
  }

  predicate AllEndLines(writes: seq<string>) {
    forall i :: 0 <= i < |writes| ==> EndsLine(writes[i])
  }

  /** The characters of all the lines together. */
  function TotalLength(lines: seq<string>): nat
  {
    if |lines| == 0 then 0 else |lines[0]| + TotalLength(lines[1..])
  }

  /** `lines.join("\n")`: one newline between neighbouring lines, none at the ends. */
  function Join(lines: seq<string>): (s: string)
    ensures |lines| == 0 ==> s == ""
    ensures |lines| > 0 ==> |s| == TotalLength(lines) + |lines| - 1
    ensures |lines| > 1 ==> s[..|lines[0]| + 1] == lines[0] + [Newline]
  {
    if |lines| == 0 then ""
    else if |lines| == 1 then lines[0]
    else lines[0] + [Newline] + Join(lines[1..])
  }

  /** `text.split("\n")`: the pieces between newlines; the empty text is one empty piece. */
  function Split(s: string): (lines: seq<string>)
    ensures |lines| >= 1
    ensures AllSingleLine(lines)
  {
    if |s| == 0 then [""]
    else
      var tail := Split(s[1..]);
      if s[0] == Newline then [""] + tail
      else [[s[0]] + tail[0]] + tail[1..]
  }

  /** A line as a line-writer hands it to the stream: with its newline. */
  function Terminate(line: string): (w: string)
    ensures EndsLine(w) && w[..|w| - 1] == line
  {
    line + [Newline]
  }

  function TerminateAll(lines: seq<string>): (writes: seq<string>)
    ensures |writes| == |lines|
    ensures forall i :: 0 <= i < |lines| ==> writes[i] == Terminate(lines[i])
  {
    if |lines| == 0 then [] else [Terminate(lines[0])] + TerminateAll(lines[1..])
  }

  /** The text a stream holds after the given writes, in order. */
  function Transcript(writes: seq<string>): string
  {
    if |writes| == 0 then "" else writes[0] + Transcript(writes[1..])
  }

  /** The lines a reader finds on a stream after the given writes. */
  function ReadLines(writes: seq<string>): seq<string>
  {
    Split(Transcript(writes))
  }

  lemma SingleLineConcat(a: string, b: string)
    requires SingleLine(a) && SingleLine(b)
    ensures SingleLine(a + b)
  {
  }

  /** Text without a newline splits into itself alone. */
  lemma {:induction false} SplitSingleLine(s: string)
    requires SingleLine(s)
    ensures Split(s) == [s]
  {
    if |s| > 0 {
      assert SingleLine(s[1..]) by {
        forall c | c in s[1..] ensures c != Newline { assert c in s; }
      }
      SplitSingleLine(s[1..]);
      assert [s[0]] + s[1..] == s;
    }
  }

  /** A newline cuts the text: the pieces before it and the pieces after it. */
  lemma {:induction false} SplitAtNewline(a: string, b: string)
    ensures Split(a + [Newline] + b) == Split(a) + Split(b)
  {
    if |a| == 0 {
      assert a + [Newline] + b == [Newline] + b;
      assert ([Newline] + b)[1..] == b;
    } else {
      var s := a + [Newline] + b;
      assert s[1..] == a[1..] + [Newline] + b;
      SplitAtNewline(a[1..], b);
    }
  }

  /** Splitting undoes joining, for lines that hold no newline. */
  lemma {:induction false} SplitJoin(lines: seq<string>)
    requires |lines| >= 1
    requires AllSingleLine(lines)
    ensures Split(Join(lines)) == lines
  {
    if |lines| == 1 {
      SplitSingleLine(lines[0]);
    } else {
      SplitAtNewline(lines[0], Join(lines[1..]));
      SplitSingleLine(lines[0]);
      SplitJoin(lines[1..]);
      assert [lines[0]] + lines[1..] == lines;
    }
  }

  /** Joining undoes splitting, for every text. */
  lemma {:induction false} JoinSplit(s: string)
    ensures Join(Split(s)) == s
  {
    if |s| > 0 {
      var tail := Split(s[1..]);
      JoinSplit(s[1..]);
      if s[0] == Newline {
        assert ([""] + tail)[1..] == tail;
      } else if |tail| == 1 {
        assert [s[0]] + s[1..] == s;
      } else {
        var lines := [[s[0]] + tail[0]] + tail[1..];
        assert lines[1..] == tail[1..];
        assert Join(tail) == tail[0] + [Newline] + Join(tail[1..]);
        assert [s[0]] + s[1..] == s;
      }
    }
  }

  /** Writing each line with its newline leaves the lines joined, plus a final newline. */
  lemma {:induction false} TranscriptOfLines(lines: seq<string>)
    ensures Transcript(TerminateAll(lines)) == Join(lines + [""])
  {
    if |lines| > 0 {
      TranscriptOfLines(lines[1..]);
      assert (lines + [""])[1..] == lines[1..] + [""];
      assert TerminateAll(lines)[1..] == TerminateAll(lines[1..]);
    }
  }

  /** A reader of a stream written line by line gets the lines back, then the empty
      piece after the last newline. */
  lemma ReadLinesOfLines(lines: seq<string>)
    requires AllSingleLine(lines)
    ensures ReadLines(TerminateAll(lines)) == lines + [""]
  {
    TranscriptOfLines(lines);
    assert AllSingleLine(lines + [""]) by {
      assert forall c :: c !in "";
    }
    SplitJoin(lines + [""]);
  }
}
