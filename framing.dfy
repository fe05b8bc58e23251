/**
 * Newline framing shared by the control server's receive loop and the
 * client's log receiver: decoded chunks are appended to a buffer, which is
 * split at the first '\n' for as long as it holds one.
 */
module Framing {

  predicate NoNewline(s: string) {
    '\n' !in s
  }

  predicate AllLines(lines: seq<string>) {
    forall i :: 0 <= i < |lines| ==> NoNewline(lines[i])
  }

  /** What a sender writes for `lines`: each line followed by '\n'. */
  function Framed(lines: seq<string>): string
    decreases |lines|
  {
    if lines == [] then "" else lines[0] + "\n" + Framed(lines[1..])
  }

  lemma {:induction false} FramedAppend(a: seq<string>, b: seq<string>)
    ensures Framed(a + b) == Framed(a) + Framed(b)
    decreases |a|
  {
    if a != [] {
      assert (a + b)[1..] == a[1..] + b;
      FramedAppend(a[1..], b);
    } else {
      assert a + b == b;
    }
  }

  /** `s.split('\n', 1)` on a string that holds a newline. */
  function SplitFirst(s: string): (r: (string, string))
    requires '\n' in s
    ensures NoNewline(r.0) && s == r.0 + "\n" + r.1
    decreases |s|
  {
    if s[0] == '\n' then ("", s[1..])
    else
      var t := SplitFirst(s[1..]);
      ([s[0]] + t.0, t.1)
  }

  /** The split is at the first newline: any newline-free head followed by '\n' is it. */
  lemma {:induction false} SplitFirstUnique(s: string, head: string, tail: string)
    requires NoNewline(head) && s == head + "\n" + tail
    ensures '\n' in s && SplitFirst(s) == (head, tail)
    decreases |head|
  {
    assert s[|head|] == '\n';
    if head != [] {
      assert s[0] == head[0] && head[0] != '\n';
      assert s[1..] == head[1..] + "\n" + tail;
      SplitFirstUnique(s[1..], head[1..], tail);
      assert [s[0]] + head[1..] == head;
    } else {
      assert s[1..] == tail;
    }
  }

  /** The complete lines of `s`, in order, and the unterminated remainder. */
  function SplitLines(s: string): (r: (seq<string>, string))
    ensures AllLines(r.0) && NoNewline(r.1) && Framed(r.0) + r.1 == s
    decreases |s|
  {
    if '\n' in s then
      var first := SplitFirst(s);
      var more := SplitLines(first.1);
      assert ([first.0] + more.0)[1..] == more.0;
      ([first.0] + more.0, more.1)
    else ([], s)
  }

  /** The three properties of SplitLines determine its result. */
  lemma {:induction false} SplitLinesUnique(s: string, lines: seq<string>, rest: string)
    requires AllLines(lines) && NoNewline(rest) && Framed(lines) + rest == s
    ensures SplitLines(s) == (lines, rest)
    decreases |lines|
  {
    if lines == [] {
      assert s == rest;
    } else {
      var tail := Framed(lines[1..]) + rest;
      assert s == lines[0] + "\n" + tail;
      SplitFirstUnique(s, lines[0], tail);
      assert AllLines(lines[1..]) by {
        forall i | 0 <= i < |lines[1..]| ensures NoNewline(lines[1..][i]) {
          assert lines[1..][i] == lines[i + 1];
        }
      }
      SplitLinesUnique(tail, lines[1..], rest);
      assert [lines[0]] + lines[1..] == lines;
    }
  }

  /**
   * Chunking independence: splitting after c1 and then after c2 yields the
   * lines, in order, and the remainder of splitting after c1 + c2.
   */
  lemma SplitChunked(buffer: string, c1: string, c2: string)
    ensures var first := SplitLines(buffer + c1);
            var second := SplitLines(first.1 + c2);
            SplitLines(buffer + c1 + c2) == (first.0 + second.0, second.1)
  {
    var first := SplitLines(buffer + c1);
    var second := SplitLines(first.1 + c2);
    Rejoin(buffer + c1, first.0, first.1, c2, second.0, second.1);
  }

  /** Two successive splits describe the concatenated input. */
  lemma Rejoin(s1: string, lines1: seq<string>, rest1: string, c2: string, lines2: seq<string>, rest2: string)
    requires AllLines(lines1) && Framed(lines1) + rest1 == s1
    requires AllLines(lines2) && NoNewline(rest2) && Framed(lines2) + rest2 == rest1 + c2
    ensures SplitLines(s1 + c2) == (lines1 + lines2, rest2)
  {
    RejoinFramed(s1, lines1, rest1, c2, lines2, rest2);
    SplitLinesUnique(s1 + c2, lines1 + lines2, rest2);
  }

  lemma RejoinFramed(s1: string, lines1: seq<string>, rest1: string, c2: string, lines2: seq<string>, rest2: string)
    requires AllLines(lines1) && Framed(lines1) + rest1 == s1
    requires AllLines(lines2) && Framed(lines2) + rest2 == rest1 + c2
    ensures AllLines(lines1 + lines2) && Framed(lines1 + lines2) + rest2 == s1 + c2
  {
    FramedAppend(lines1, lines2);
    calc {
      Framed(lines1 + lines2) + rest2;
      Framed(lines1) + (Framed(lines2) + rest2);
      Framed(lines1) + (rest1 + c2);
      (Framed(lines1) + rest1) + c2;
    }
  }

  /** The receive buffer of one connection. */
  class LineFramer {
    var buffer: string

    constructor ()
      ensures buffer == ""
    {
      buffer := "";
    }

    /**
     * Appends a decoded chunk and splits off every complete line, in arrival
     * order; what remains in the buffer holds no newline.
     */
    method Feed(chunk: string) returns (lines: seq<string>)
      modifies this
      ensures (lines, buffer) == SplitLines(old(buffer) + chunk)
      ensures AllLines(lines) && NoNewline(buffer)
      ensures Framed(lines) + buffer == old(buffer) + chunk
    {
      buffer := buffer + chunk;
      lines := [];
      while '\n' in buffer
        invariant AllLines(lines)
        invariant Framed(lines) + buffer == old(buffer) + chunk
        decreases |buffer|
      {
        var parts := SplitFirst(buffer);
        FramedAppend(lines, [parts.0]);
        assert Framed([parts.0]) == parts.0 + "\n";
        lines := lines + [parts.0];
        buffer := parts.1;
      }
      SplitLinesUnique(old(buffer) + chunk, lines, buffer);
    }
  }
}
