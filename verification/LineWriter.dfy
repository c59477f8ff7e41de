/** The writer that cuts a container's log stream into lines, whatever chunks it arrives in. */
module LineWriter {

  newtype Byte = b: int | 0 <= b < 256

  const LF: Byte := 10
  const CR: Byte := 13

  type Bytes = seq<Byte>

  // ----- lines of a byte stream -----

  /** What follows the last newline. */
  function Rest(s: Bytes): Bytes {
    if s == [] || s[|s|-1] == LF then [] else Rest(s[..|s|-1]) + [s[|s|-1]]
  }

  /** The terminated lines, without their newlines. */
  function Lines(s: Bytes): seq<Bytes> {
    if s == [] then []
    else if s[|s|-1] == LF then Lines(s[..|s|-1]) + [Rest(s[..|s|-1])]
    else Lines(s[..|s|-1])
  }

  function Join(lines: seq<Bytes>): Bytes {
    if lines == [] then [] else Join(lines[..|lines|-1]) + lines[|lines|-1] + [LF]
  }

  ghost predicate Unbroken(lines: seq<Bytes>) {
    forall k | 0 <= k < |lines| :: LF !in lines[k]
  }

  function TrimRight(line: Bytes): Bytes {
    if line != [] && line[|line|-1] == CR then TrimRight(line[..|line|-1]) else line
  }

  function TrimAll(lines: seq<Bytes>): (trimmed: seq<Bytes>)
    ensures |trimmed| == |lines|
  {
    seq(|lines|, k requires 0 <= k < |lines| => TrimRight(lines[k]))
  }

  lemma Grow(s: Bytes, b: Byte)
    ensures Rest(s + [b]) == if b == LF then [] else Rest(s) + [b]
    ensures Lines(s + [b]) == if b == LF then Lines(s) + [Rest(s)] else Lines(s)
  {
  }

  // ----- what the lines are -----

  /** The lines and the remainder put together again are the input, and hold no stray newline. */
  lemma {:induction false} Reconstruct(s: Bytes)
    ensures Join(Lines(s)) + Rest(s) == s && Unbroken(Lines(s)) && LF !in Rest(s)
    decreases |s|
  {
    if s != [] {
      var front := s[..|s|-1];
      Reconstruct(front);
      assert s == front + [s[|s|-1]];
      if s[|s|-1] == LF { assert Lines(s)[..|Lines(s)|-1] == Lines(front); }
    }
  }

  lemma {:induction false} UnbrokenText(s: Bytes)
    requires LF !in s
    ensures Lines(s) == [] && Rest(s) == s
    decreases |s|
  {
    if s != [] {
      UnbrokenText(s[..|s|-1]);
      assert s == s[..|s|-1] + [s[|s|-1]];
    }
  }

  ghost predicate SplitsAs(s: Bytes, lines: seq<Bytes>, t: Bytes) {
    Lines(s) == lines + Lines(t) && Rest(s) == Rest(t)
  }

  lemma SplitGrow(s: Bytes, lines: seq<Bytes>, t: Bytes, b: Byte)
    requires SplitsAs(s, lines, t)
    ensures SplitsAs(s + [b], lines, t + [b])
  {
  }

  lemma SplitHere(a: Bytes)
    ensures SplitsAs(a, Lines(a), Rest(a))
  {
    Reconstruct(a);
    UnbrokenText(Rest(a));
  }

  lemma {:induction false} SplitFrom(a: Bytes, lines: seq<Bytes>, rest: Bytes, b: Bytes)
    requires SplitsAs(a, lines, rest)
    ensures SplitsAs(a + b, lines, rest + b)
    decreases |b|
  {
    if b == [] {
      assert a + b == a && rest + b == rest;
    } else {
      var front, last := b[..|b|-1], b[|b|-1];
      SplitFrom(a, lines, rest, front);
      SplitGrow(a + front, lines, rest + front, last);
      assert (a + front) + [last] == a + b;
      assert (rest + front) + [last] == rest + b;
    }
  }

  /** Lines of a stream read in two parts. */
  lemma SplitConcat(a: Bytes, b: Bytes)
    ensures Lines(a + b) == Lines(a) + Lines(Rest(a) + b)
    ensures Rest(a + b) == Rest(Rest(a) + b)
  {
    SplitHere(a);
    SplitFrom(a, Lines(a), Rest(a), b);
  }

  /** The first line comes off the front. */
  lemma SplitOff(line: Bytes, s: Bytes)
    requires LF !in line
    ensures Lines(line + [LF] + s) == [line] + Lines(s) && Rest(line + [LF] + s) == Rest(s)
  {
    UnbrokenText(line);
    Grow(line, LF);
    SplitConcat(line + [LF], s);
    assert [] + s == s;
  }

  /** There is only one way to cut a stream into lines. */
  lemma {:induction false} OnlySplit(lines: seq<Bytes>, rest: Bytes)
    requires Unbroken(lines) && LF !in rest
    ensures Lines(Join(lines) + rest) == lines && Rest(Join(lines) + rest) == rest
    decreases |lines|
  {
    if lines == [] {
      assert [] + rest == rest;
      UnbrokenText(rest);
    } else {
      var front, last := lines[..|lines|-1], lines[|lines|-1];
      OnlySplit(front, last);
      var text := Join(front) + last;
      assert Join(lines) == text + [LF];
      Grow(text, LF);
      SplitText(text + [LF], rest);
    }
  }

  lemma SplitText(s: Bytes, text: Bytes)
    requires Rest(s) == [] && LF !in text
    ensures Lines(s + text) == Lines(s) && Rest(s + text) == text
  {
    SplitConcat(s, text);
    UnbrokenText(text);
    assert [] + text == text;
  }

  // ----- the writer -----

  datatype Output = Output(buf: Bytes, emitted: seq<Bytes>)

  function Written(o: Output, p: Bytes): Output {
    Output(Rest(o.buf + p), o.emitted + TrimAll(Lines(o.buf + p)))
  }

  function WrittenAll(o: Output, chunks: seq<Bytes>): Output {
    if chunks == [] then o else Written(WrittenAll(o, chunks[..|chunks|-1]), chunks[|chunks|-1])
  }

  function Concat(chunks: seq<Bytes>): Bytes {
    if chunks == [] then [] else Concat(chunks[..|chunks|-1]) + chunks[|chunks|-1]
  }

  class LineWriter {
    const stream: string
    var buf: Bytes
    var calls: seq<(string, Bytes)>      // what onLine was called with

    constructor (stream: string)
      ensures this.stream == stream && buf == [] && calls == []
    {
      this.stream := stream;
      buf, calls := [], [];
    }

    ghost function Tagged(lines: seq<Bytes>): seq<(string, Bytes)> {
      seq(|lines|, k requires 0 <= k < |lines| => (stream, lines[k]))
    }

    /** bytes.IndexByte */
    static method IndexByte(s: Bytes, c: Byte) returns (i: int)
      ensures -1 <= i < |s|
      ensures i < 0 ==> c !in s
      ensures i >= 0 ==> s[i] == c && c !in s[..i]
    {
      i := 0;
      while i < |s| && s[i] != c
        invariant 0 <= i <= |s| && c !in s[..i]
      {
        i := i + 1;
      }
      if i == |s| {
        i := -1;
      }
    }

    method Write(p: Bytes) returns (n: nat)
      modifies this
      ensures n == |p|
      ensures buf == Rest(old(buf) + p) && LF !in buf
      ensures calls == old(calls) + Tagged(TrimAll(Lines(old(buf) + p)))
    {
      buf := buf + p;
      ghost var input := buf;
      ghost var done: seq<Bytes> := [];
      while true
        invariant Rest(buf) == Rest(input)
        invariant done + Lines(buf) == Lines(input)
        invariant calls == old(calls) + Tagged(TrimAll(done))
        decreases |buf|
      {
        var i := IndexByte(buf, LF);
        if i < 0 {
          UnbrokenText(buf);
          break;
        }
        var line := TrimRight(buf[..i]);
        calls := calls + [(stream, line)];
        CutOff(buf, i);
        done := done + [buf[..i]];
        buf := buf[i+1..];
      }
      Reconstruct(buf);
      return |p|;
    }

    /** The last, unterminated line goes out as it is. */
    method Flush()
      modifies this
      ensures buf == []
      ensures calls == old(calls) + if old(buf) == [] then [] else [(stream, old(buf))]
    {
      if |buf| == 0 {
        return;
      }
      calls := calls + [(stream, buf)];
      buf := [];
    }
  }

  lemma CutOff(s: Bytes, i: nat)
    requires i < |s| && s[i] == LF && LF !in s[..i]
    ensures Lines(s) == [s[..i]] + Lines(s[i+1..]) && Rest(s) == Rest(s[i+1..])
  {
    SplitOff(s[..i], s[i+1..]);
    assert s == s[..i] + [LF] + s[i+1..];
  }

  /** However the stream is cut into writes, the lines emitted and the buffer are those of a single
      write of the whole. */
  lemma {:induction false} ChunkIndependence(o: Output, chunks: seq<Bytes>)
    requires LF !in o.buf
    ensures WrittenAll(o, chunks) == Written(o, Concat(chunks))
    decreases |chunks|
  {
    if chunks == [] {
      UnbrokenText(o.buf);
      assert o.buf + [] == o.buf;
    } else {
      var front, last := chunks[..|chunks|-1], chunks[|chunks|-1];
      ChunkIndependence(o, front);
      var before := o.buf + Concat(front);
      assert o.buf + (Concat(front) + last) == before + last;
      WrittenTwice(before, o.emitted, last);
    }
  }

  lemma WrittenTwice(before: Bytes, emitted: seq<Bytes>, p: Bytes)
    ensures Written(Output(Rest(before), emitted + TrimAll(Lines(before))), p) ==
            Output(Rest(before + p), emitted + TrimAll(Lines(before + p)))
  {
    var lines, rest := Lines(before), Rest(before);
    SplitHere(before);
    SplitFrom(before, lines, rest, p);
    TrimAllConcat(lines, Lines(rest + p));
    Associate(emitted, TrimAll(lines), TrimAll(Lines(rest + p)));
  }

  lemma Associate(a: seq<Bytes>, b: seq<Bytes>, c: seq<Bytes>)
    ensures (a + b) + c == a + (b + c)
  {
  }

  lemma TrimAllConcat(a: seq<Bytes>, b: seq<Bytes>)
    ensures TrimAll(a + b) == TrimAll(a) + TrimAll(b)
  {
  }

  /** Trimming takes the carriage returns at the end of a line and nothing else. */
  lemma {:induction false} TrimRightExact(line: Bytes)
    ensures TrimRight(line) <= line
    ensures TrimRight(line) == [] || TrimRight(line)[|TrimRight(line)|-1] != CR
    ensures forall k | |TrimRight(line)| <= k < |line| :: line[k] == CR
  {
    if line != [] && line[|line|-1] == CR {
      TrimRightExact(line[..|line|-1]);
    }
  }

  /** "a", carriage return, newline, "b", carriage return: one line without its return, and a rest with it. */
  lemma Example()
    ensures Written(Output([], []), [97, 13, 10, 98, 13]) == Output([98, 13], [[97]])
  {
    var line: Bytes, rest: Bytes := [97, 13], [98, 13];
    UnbrokenText(line);
    Grow(line, 10);
    SplitText(line + [10], rest);
    var all: Bytes := [97, 13, 10, 98, 13];
    var none: Bytes := [];
    assert none + all == all && line + [10] + rest == all;
    assert Lines(all) == [line] && Rest(all) == rest;
    assert line[..1] == [97];
    assert TrimRight(line) == [97];
    assert TrimAll([line]) == [[97]];
  }

  /** Only the last line of a stream can reach the reader with a carriage return at its end. */
  lemma FlushKeepsReturn(text: Bytes)
    requires LF !in text
    ensures Written(Output([], []), text + [CR]) == Output(text + [CR], [])
    ensures Written(Output([], []), text + [CR] + [LF]) == Output([], [TrimRight(text)])
  {
    assert [] + (text + [CR]) == text + [CR];
    assert [] + (text + [CR] + [LF]) == text + [CR] + [LF];
    UnbrokenText(text + [CR]);
    Grow(text + [CR], LF);
    assert (text + [CR])[..|text|] == text;
  }
}
