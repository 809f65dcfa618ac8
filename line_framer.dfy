/**
 * The line framer (`next_line`, src/blocks.c): reads the input channel one
 * character at a time into a buffer and publishes a complete line as the
 * active line. A channel with nothing left to read ("no data yet") ends the
 * attempt and keeps the partial buffer for the next one.
 */
module LineFramer {
  import opened BlocksModeData

  /** The framer's state after one attempt, and whether a line was published. */
  datatype Framed = Framed(buffer: string, activeLine: string, unread: string, published: bool)

  /**
   * One attempt of `next_line` exactly as written: on '\n' the buffer is
   * emptied and the attempt succeeds, but the active line is only replaced
   * when the buffer held more than the terminator.
   */
  function ScanAsWritten(buffer: string, activeLine: string, unread: string): (r: Framed)
    ensures r.published ==> r.buffer == [] && |r.unread| < |unread|
    ensures !r.published ==> r.unread == [] && r.activeLine == activeLine
    decreases |unread|
  {
    if unread == [] then Framed(buffer, activeLine, [], false)
    else
      var b := buffer + [unread[0]];
      if unread[0] == '\n' then Framed([], if |b| > 1 then b else activeLine, unread[1..], true)
      else ScanAsWritten(b, activeLine, unread[1..])
  }

  /**
   * A keep-alive line (the terminator alone) makes the as-written framer
   * report a line without replacing the active line, so the caller applies
   * the previous line again.
   */
  lemma KeepAliveReappliesPreviousLine(activeLine: string, rest: string)
    ensures ScanAsWritten([], activeLine, "\n" + rest) == Framed([], activeLine, rest, true)
  {
  }

  /**
   * One attempt of `next_line` with the keep-alive discarded: a line made of
   * the terminator alone empties the buffer and reading goes on.
   */
  function Scan(buffer: string, activeLine: string, unread: string): (r: Framed)
    ensures r.published ==> r.buffer == [] && |r.unread| < |unread|
    ensures !r.published ==> r.unread == [] && r.activeLine == activeLine
    decreases |unread|
  {
    if unread == [] then Framed(buffer, activeLine, [], false)
    else
      var b := buffer + [unread[0]];
      if unread[0] == '\n' then
        if |b| > 1 then Framed([], b, unread[1..], true)
        else Scan([], activeLine, unread[1..])
      else Scan(b, activeLine, unread[1..])
  }

  /** Without a terminator in what is left to read, everything goes into the buffer and nothing is published. */
  lemma {:induction false} ScanWithoutNewline(buffer: string, activeLine: string, unread: string)
    requires '\n' !in unread
    ensures Scan(buffer, activeLine, unread) == Framed(buffer + unread, activeLine, [], false)
    decreases |unread|
  {
    if unread == [] {
      assert buffer + unread == buffer;
    } else {
      assert '\n' !in unread[1..];
      ScanWithoutNewline(buffer + [unread[0]], activeLine, unread[1..]);
      assert buffer + [unread[0]] + unread[1..] == buffer + unread;
    }
  }

  /**
   * A non-empty line: the buffer and what is read up to the first terminator,
   * terminator included, becomes the active line and the rest stays unread.
   */
  lemma {:induction false} ScanPublishesLine(buffer: string, activeLine: string, w: string, rest: string)
    requires '\n' !in w
    requires |buffer + w| > 0
    ensures Scan(buffer, activeLine, w + "\n" + rest) == Framed([], buffer + w + "\n", rest, true)
    decreases |w|
  {
    var u := w + "\n" + rest;
    if w == [] {
      assert u == "\n" + rest;
      assert buffer + w == buffer;
    } else {
      assert u[0] == w[0] && u[1..] == w[1..] + "\n" + rest;
      assert '\n' !in w[1..];
      ScanPublishesLine(buffer + [w[0]], activeLine, w[1..], rest);
      assert buffer + [w[0]] + w[1..] == buffer + w;
    }
  }

  /** A keep-alive line is discarded: reading simply goes on after it. */
  lemma ScanSkipsKeepAlive(activeLine: string, rest: string)
    ensures Scan([], activeLine, "\n" + rest) == Scan([], activeLine, rest)
  {
    assert ("\n" + rest)[1..] == rest;
  }

  /**
   * A published line is never the terminator alone: it ends in '\n', holds
   * no other '\n', and has something before the terminator.
   */
  lemma {:induction false} PublishedLineHasContent(buffer: string, activeLine: string, unread: string)
    requires '\n' !in buffer
    ensures var r := Scan(buffer, activeLine, unread);
      r.published ==> |r.activeLine| > 1 && r.activeLine[|r.activeLine| - 1] == '\n'
                      && '\n' !in r.activeLine[..|r.activeLine| - 1]
    decreases |unread|
  {
    if unread != [] {
      var b := buffer + [unread[0]];
      if unread[0] == '\n' {
        if |b| > 1 {
          assert b[..|b| - 1] == buffer;
        } else {
          PublishedLineHasContent([], activeLine, unread[1..]);
        }
      } else {
        assert '\n' !in b;
        PublishedLineHasContent(b, activeLine, unread[1..]);
      }
    }
  }

  /** The buffer never holds a terminator between attempts. */
  lemma {:induction false} ScanBufferHasNoNewline(buffer: string, activeLine: string, unread: string)
    requires '\n' !in buffer
    ensures '\n' !in Scan(buffer, activeLine, unread).buffer
    decreases |unread|
  {
    if unread != [] {
      var b := buffer + [unread[0]];
      if unread[0] == '\n' {
        if |b| <= 1 {
          ScanBufferHasNoNewline([], activeLine, unread[1..]);
        }
      } else {
        assert '\n' !in b;
        ScanBufferHasNoNewline(b, activeLine, unread[1..]);
      }
    }
  }

  /** What the framer does with the buffer and the channel does not depend on the active line. */
  lemma {:induction false} ScanIgnoresActiveLine(buffer: string, a1: string, a2: string, unread: string)
    ensures Scan(buffer, a1, unread).buffer == Scan(buffer, a2, unread).buffer
    ensures Scan(buffer, a1, unread).unread == Scan(buffer, a2, unread).unread
    ensures Scan(buffer, a1, unread).published == Scan(buffer, a2, unread).published
    decreases |unread|
  {
    if unread != [] {
      var b := buffer + [unread[0]];
      if unread[0] == '\n' {
        if |b| <= 1 {
          ScanIgnoresActiveLine([], a1, a2, unread[1..]);
        }
      } else {
        ScanIgnoresActiveLine(b, a1, a2, unread[1..]);
      }
    }
  }

  /** Running the framer until it reports no line: how many lines it publishes and the partial line left over. */
  datatype Drained = Drained(lines: nat, buffer: string)

  function Drain(buffer: string, unread: string): (r: Drained)
    ensures r.lines <= |unread|
    decreases |unread|
  {
    var f := Scan(buffer, [], unread);
    if f.published then
      var d := Drain(f.buffer, f.unread);
      Drained(d.lines + 1, d.buffer)
    else Drained(0, f.buffer)
  }

  /** What is left over after draining a channel is a partial line: it holds no terminator. */
  lemma {:induction false} DrainLeavesPartialLine(buffer: string, unread: string)
    requires '\n' !in buffer
    ensures '\n' !in Drain(buffer, unread).buffer
    decreases |unread|
  {
    var f := Scan(buffer, [], unread);
    ScanBufferHasNoNewline(buffer, [], unread);
    if f.published {
      DrainLeavesPartialLine(f.buffer, f.unread);
    }
  }

  /** Draining text without a terminator publishes nothing and buffers it all. */
  lemma DrainWithoutNewline(buffer: string, unread: string)
    requires '\n' !in unread
    ensures Drain(buffer, unread) == Drained(0, buffer + unread)
  {
    ScanWithoutNewline(buffer, [], unread);
  }

  /**
   * `next_line`: reads from `source` until a non-empty line is complete (it
   * becomes the active line and the buffer is emptied) or nothing is left
   * to read (the partial line stays buffered).
   */
  method NextLine(data: ModeData, source: IOChannel) returns (published: bool)
    modifies data`buffer, data`activeLine, source`unread
    ensures var f := Scan(old(data.buffer), old(data.activeLine), old(source.unread));
      data.buffer == f.buffer && data.activeLine == f.activeLine && source.unread == f.unread
      && published == f.published
  {
    ghost var goal := Scan(data.buffer, data.activeLine, source.unread);
    while source.unread != []
      invariant Scan(data.buffer, data.activeLine, source.unread) == goal
      decreases |source.unread|
    {
      var c := source.unread[0];
      source.unread := source.unread[1..];
      data.buffer := data.buffer + [c];
      if c == '\n' {
        if |data.buffer| > 1 {
          data.activeLine := data.buffer;
          data.buffer := [];
          return true;
        }
        data.buffer := [];
      }
    }
    return false;
  }
}
