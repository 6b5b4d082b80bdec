/** Chunked stream readers: the line framing of cli/session.py and the capped readers of
    cli/session.py and api/web_tools/outbound.py. Each loop is proved to compute a simple
    function of the whole stream, whatever the chunk boundaries. */
module StreamReads {
  import opened Base

  type Byte = b: int | 0 <= b < 256

  const NEWLINE: Byte := 10

  lemma {:induction false} FlattenAppend<T>(parts: seq<seq<T>>, last: seq<T>)
    ensures Flatten(parts + [last]) == Flatten(parts) + last
  {
    assert (parts + [last])[..|parts|] == parts;
  }

  lemma FlattenTake<T>(parts: seq<seq<T>>, n: nat)
    requires n < |parts|
    ensures Flatten(parts[..n + 1]) == Flatten(parts[..n]) + parts[n]
  {
    assert parts[..n + 1] == parts[..n] + [parts[n]];
    FlattenAppend(parts[..n], parts[n]);
  }

  lemma {:induction false} FlattenPrefix<T>(parts: seq<seq<T>>, n: nat)
    requires n <= |parts|
    ensures Flatten(parts[..n]) <= Flatten(parts)
    decreases |parts| - n
  {
    if n == |parts| {
      assert parts[..n] == parts;
    } else {
      FlattenPrefix(parts, n + 1);
      FlattenTake(parts, n);
    }
  }

  // Line framing.

  /** buffer.find(b"\n"), or the length when there is none. */
  function FindNewline(s: seq<Byte>): (k: nat)
    ensures k <= |s| && (k < |s| ==> s[k] == NEWLINE)
    ensures NEWLINE !in s[..k]
  {
    if s == [] || s[0] == NEWLINE then 0
    else
      var k := FindNewline(s[1..]);
      assert s[..k + 1] == [s[0]] + s[1..][..k];
      k + 1
  }

  /** The terminated lines of a stream. */
  function Terminated(s: seq<Byte>): (lines: seq<seq<Byte>>)
    ensures forall i :: 0 <= i < |lines| ==> NEWLINE !in lines[i]
    decreases |s|
  {
    var k := FindNewline(s);
    if k == |s| then [] else [s[..k]] + Terminated(s[k + 1..])
  }

  /** What follows the last newline. */
  function Unterminated(s: seq<Byte>): (rest: seq<Byte>)
    ensures NEWLINE !in rest
    decreases |s|
  {
    var k := FindNewline(s);
    if k == |s| then s[..k] else Unterminated(s[k + 1..])
  }

  /** All lines of a finished stream, an unterminated last one included. */
  function Lines(s: seq<Byte>): seq<seq<Byte>> {
    Terminated(s) + if Unterminated(s) == [] then [] else [Unterminated(s)]
  }

  function Glue(lines: seq<seq<Byte>>, rest: seq<Byte>): seq<Byte> {
    if lines == [] then rest else lines[0] + [NEWLINE] + Glue(lines[1..], rest)
  }

  lemma GlueCons(line: seq<Byte>, lines: seq<seq<Byte>>, rest: seq<Byte>)
    ensures Glue([line] + lines, rest) == line + [NEWLINE] + Glue(lines, rest)
  {
    assert ([line] + lines)[1..] == lines;
  }

  /** Splitting loses nothing: gluing the lines with newlines gives the stream back. */
  lemma {:induction false} SplitRoundTrip(s: seq<Byte>)
    ensures Glue(Terminated(s), Unterminated(s)) == s
    decreases |s|
  {
    var k := FindNewline(s);
    if k == |s| {
      assert s[..k] == s;
    } else {
      var line, tail := s[..k], s[k + 1..];
      SplitRoundTrip(tail);
      GlueCons(line, Terminated(tail), Unterminated(tail));
      assert s == line + [NEWLINE] + tail;
    }
  }

  lemma FindInGlued(line: seq<Byte>, rest: seq<Byte>)
    requires NEWLINE !in line
    ensures FindNewline(line + [NEWLINE] + rest) == |line|
  {
    var s := line + [NEWLINE] + rest;
    var k := FindNewline(s);
    assert forall i :: 0 <= i < |line| ==> s[i] == line[i];
    assert s[|line|] == NEWLINE;
    assert forall i :: 0 <= i < k ==> s[..k][i] == s[i];
  }

  /** And it is the only such reading: newline-free lines and rest are recovered exactly. */
  lemma {:induction false} SplitUnique(lines: seq<seq<Byte>>, rest: seq<Byte>)
    requires NEWLINE !in rest && forall i :: 0 <= i < |lines| ==> NEWLINE !in lines[i]
    ensures Terminated(Glue(lines, rest)) == lines && Unterminated(Glue(lines, rest)) == rest
  {
    if lines == [] {
      assert FindNewline(rest) == |rest|;
      assert rest[..|rest|] == rest;
    } else {
      var tail := Glue(lines[1..], rest);
      SplitUnique(lines[1..], rest);
      FindInGlued(lines[0], tail);
      var s := lines[0] + [NEWLINE] + tail;
      assert s[|lines[0]| + 1..] == tail && s[..|lines[0]|] == lines[0];
    }
  }

  lemma {:induction false} GlueAppend(lines: seq<seq<Byte>>, more: seq<seq<Byte>>, rest: seq<Byte>)
    ensures Glue(lines + more, rest) == Glue(lines, Glue(more, rest))
  {
    if lines == [] {
      assert lines + more == more;
    } else {
      GlueAppend(lines[1..], more, rest);
      assert (lines + more)[1..] == lines[1..] + more;
    }
  }

  lemma {:induction false} GlueRest(lines: seq<seq<Byte>>, rest: seq<Byte>, more: seq<Byte>)
    ensures Glue(lines, rest) + more == Glue(lines, rest + more)
  {
    if lines != [] {
      GlueRest(lines[1..], rest, more);
      var line, glued := lines[0] + [NEWLINE], Glue(lines[1..], rest);
      assert line + glued + more == line + (glued + more);
    }
  }

  /** Framing is incremental: more input only extends what was already framed. */
  lemma FramingExtends(s: seq<Byte>, more: seq<Byte>)
    ensures Terminated(s + more) == Terminated(s) + Terminated(Unterminated(s) + more)
    ensures Unterminated(s + more) == Unterminated(Unterminated(s) + more)
  {
    var lines, rest := Terminated(s), Unterminated(s);
    var lines', rest' := Terminated(rest + more), Unterminated(rest + more);
    SplitRoundTrip(s);
    SplitRoundTrip(rest + more);
    GlueRest(lines, rest, more);
    GlueAppend(lines, lines', rest');
    SplitUnique(lines + lines', rest');
  }

  function Readable(text: string): seq<string> {
    if text != "" then [text] else []
  }

  /** Decode and strip each line (any function), and drop the blank ones. */
  function HandedOn(lines: seq<seq<Byte>>, decode: seq<Byte> -> string): seq<string> {
    if lines == [] then []
    else Readable(decode(lines[0])) + HandedOn(lines[1..], decode)
  }

  lemma Regrouped<T>(a: seq<T>, b: seq<T>, c: seq<T>)
    ensures a + (b + c) == a + b + c
  {
  }

  lemma HandedOnCons(line: seq<Byte>, lines: seq<seq<Byte>>, decode: seq<Byte> -> string)
    ensures HandedOn([line] + lines, decode) == Readable(decode(line)) + HandedOn(lines, decode)
  {
    assert ([line] + lines)[1..] == lines;
  }

  lemma {:induction false} HandedOnConcat(a: seq<seq<Byte>>, b: seq<seq<Byte>>, decode: seq<Byte> -> string)
    ensures HandedOn(a + b, decode) == HandedOn(a, decode) + HandedOn(b, decode)
  {
    if a == [] {
      assert a + b == b;
    } else {
      HandedOnConcat(a[1..], b, decode);
      calc {
        HandedOn(a + b, decode);
        { assert (a + b)[1..] == a[1..] + b; }
        Readable(decode(a[0])) + HandedOn(a[1..] + b, decode);
        Readable(decode(a[0])) + (HandedOn(a[1..], decode) + HandedOn(b, decode));
        { Regrouped(Readable(decode(a[0])), HandedOn(a[1..], decode), HandedOn(b, decode)); }
        Readable(decode(a[0])) + HandedOn(a[1..], decode) + HandedOn(b, decode);
        HandedOn(a, decode) + HandedOn(b, decode);
      }
    }
  }

  /** What the process wrote: everything before the empty read that signals end of file. */
  function UntilEof(chunks: seq<seq<Byte>>): seq<seq<Byte>> {
    if chunks == [] || chunks[0] == [] then [] else [chunks[0]] + UntilEof(chunks[1..])
  }

  lemma {:induction false} UntilEofIs(chunks: seq<seq<Byte>>, n: nat)
    requires n <= |chunks| && (forall i :: 0 <= i < n ==> chunks[i] != [])
    requires n < |chunks| ==> chunks[n] == []
    ensures UntilEof(chunks) == chunks[..n]
  {
    if n > 0 {
      UntilEofIs(chunks[1..], n - 1);
      assert chunks[..n] == [chunks[0]] + chunks[1..][..n - 1];
    }
  }

  lemma NextLine(s: seq<Byte>, decode: seq<Byte> -> string)
    requires FindNewline(s) < |s|
    ensures var line, tail := s[..FindNewline(s)], s[FindNewline(s) + 1..];
            && HandedOn(Terminated(s), decode) == Readable(decode(line)) + HandedOn(Terminated(tail), decode)
            && Unterminated(s) == Unterminated(tail)
  {
    HandedOnCons(s[..FindNewline(s)], Terminated(s[FindNewline(s) + 1..]), decode);
  }

  /** The inner loop: hand on every complete line of the buffer, keep the incomplete rest. */
  method DrainLines(buffer: seq<Byte>, decode: seq<Byte> -> string) returns (rest: seq<Byte>, found: seq<string>)
    ensures rest == Unterminated(buffer) && found == HandedOn(Terminated(buffer), decode)
  {
    rest, found := buffer, [];
    ghost var whole := HandedOn(Terminated(buffer), decode);
    while true
      invariant whole == found + HandedOn(Terminated(rest), decode)
      invariant Unterminated(buffer) == Unterminated(rest)
      decreases |rest|
    {
      var newlinePos := FindNewline(rest);
      if newlinePos == |rest| {
        break;
      }
      var line := rest[..newlinePos];
      NextLine(rest, decode);
      rest := rest[newlinePos + 1..];
      var text := decode(line);
      ghost var later := HandedOn(Terminated(rest), decode);
      assert whole == found + Readable(text) + later by {
        Regrouped(found, Readable(text), later);
      }
      if text != "" {
        found := found + [text];
      } else {
        assert found + Readable(text) == found;
      }
    }
  }

  /** What the loop has handed on and still buffers after a stream prefix. */
  ghost predicate Framed(stream: seq<Byte>, buffer: seq<Byte>, lines: seq<string>, decode: seq<Byte> -> string) {
    buffer == Unterminated(stream) && lines == HandedOn(Terminated(stream), decode)
  }

  lemma FramedStep(stream: seq<Byte>, buffer: seq<Byte>, lines: seq<string>, decode: seq<Byte> -> string,
      chunk: seq<Byte>)
    requires Framed(stream, buffer, lines, decode)
    ensures var more := HandedOn(Terminated(buffer + chunk), decode);
            Framed(stream + chunk, Unterminated(buffer + chunk), lines + more, decode)
  {
    FramingExtends(stream, chunk);
    HandedOnConcat(Terminated(stream), Terminated(buffer + chunk), decode);
  }

  lemma FramedEnd(stream: seq<Byte>, buffer: seq<Byte>, lines: seq<string>, decode: seq<Byte> -> string)
    requires Framed(stream, buffer, lines, decode)
    ensures HandedOn(Lines(stream), decode)
         == lines + if buffer != [] && decode(buffer) != "" then [decode(buffer)] else []
  {
    HandedOnConcat(Terminated(stream), if buffer == [] then [] else [buffer], decode);
  }

  /** The stdout loop. Its output depends on the bytes only, not on how they were chunked. */
  method FrameLines(chunks: seq<seq<Byte>>, decode: seq<Byte> -> string) returns (lines: seq<string>)
    ensures lines == HandedOn(Lines(Flatten(UntilEof(chunks))), decode)
  {
    var buffer: seq<Byte> := [];
    lines := [];
    var n := 0;
    while n < |chunks| && chunks[n] != []
      invariant 0 <= n <= |chunks|
      invariant forall i :: 0 <= i < n ==> chunks[i] != []
      invariant Framed(Flatten(chunks[..n]), buffer, lines, decode)
    {
      FramedStep(Flatten(chunks[..n]), buffer, lines, decode, chunks[n]);
      FlattenTake(chunks, n);
      var found;
      buffer, found := DrainLines(buffer + chunks[n], decode);
      lines := lines + found;
      n := n + 1;
    }
    UntilEofIs(chunks, n);
    FramedEnd(Flatten(chunks[..n]), buffer, lines, decode);
    if buffer != [] {
      var text := decode(buffer);
      if text != "" {
        lines := lines + [text];
      }
    }
  }

  // Capped reads.

  /** The first cap bytes, or all of them; a cap of zero or less keeps nothing. */
  function Capped(s: seq<Byte>, cap: int): seq<Byte> {
    if cap <= 0 then [] else if |s| <= cap then s else s[..cap]
  }

  function Min(a: int, b: int): int {
    if a < b then a else b
  }

  /** stderr: keep the first maxBytes, but read every chunk up to end of file. */
  method DrainStderrBounded(chunks: seq<seq<Byte>>, maxBytes: int) returns (kept: seq<Byte>, consumed: nat)
    ensures kept == Capped(Flatten(UntilEof(chunks)), maxBytes)
    ensures consumed == |UntilEof(chunks)|
  {
    var parts: seq<seq<Byte>> := [];
    var received := 0;
    consumed := 0;
    while consumed < |chunks| && chunks[consumed] != []
      invariant 0 <= consumed <= |chunks|
      invariant forall i :: 0 <= i < consumed ==> chunks[i] != []
      invariant Flatten(parts) == Capped(Flatten(chunks[..consumed]), maxBytes)
      invariant received == |Flatten(parts)|
    {
      var chunk := chunks[consumed];
      FlattenTake(chunks, consumed);
      if received < maxBytes {
        var take := Min(|chunk|, maxBytes - received);
        FlattenAppend(parts, chunk[..take]);
        parts := parts + [chunk[..take]];
        received := received + take;
      }
      consumed := consumed + 1;
    }
    UntilEofIs(chunks, consumed);
    kept := Flatten(parts);
  }

  /** How many bytes the first n chunks hold. */
  function SizeOf(chunks: seq<seq<Byte>>, n: nat): nat
    requires n <= |chunks|
  {
    |Flatten(chunks[..n])|
  }

  /** The loop ended with chunk n: nothing was missing, and before that something was. */
  ghost predicate PulledByHttpx(chunks: seq<seq<Byte>>, maxBytes: int, n: nat) {
    && n <= |chunks| && (maxBytes <= 0 ==> n == 0)
    && (forall i :: 0 < i < n ==> SizeOf(chunks, i) < maxBytes)
    && (n < |chunks| && maxBytes > 0 ==> SizeOf(chunks, n) >= maxBytes)
  }

  /** httpx: stop as soon as the cap is reached. No chunk is pulled once the result is complete. */
  method ReadResponseBodyCapped(chunks: seq<seq<Byte>>, maxBytes: int) returns (body: seq<Byte>, pulled: nat)
    ensures body == Capped(Flatten(chunks), maxBytes)
    ensures PulledByHttpx(chunks, maxBytes, pulled)
  {
    pulled := 0;
    if maxBytes <= 0 {
      return [], 0;
    }
    var pieces: seq<seq<Byte>> := [];
    var received := 0;
    while pulled < |chunks|
      invariant 0 <= pulled <= |chunks|
      invariant Flatten(pieces) == Flatten(chunks[..pulled]) && received == |Flatten(pieces)| < maxBytes
      invariant forall i :: 0 < i <= pulled ==> SizeOf(chunks, i) < maxBytes
    {
      var chunk := chunks[pulled];
      FlattenTake(chunks, pulled);
      FlattenPrefix(chunks, pulled + 1);
      pulled := pulled + 1;
      var remaining := maxBytes - received;
      if |chunk| <= remaining {
        received := received + |chunk|;
        FlattenAppend(pieces, chunk);
        pieces := pieces + [chunk];
        if received >= maxBytes {
          break;
        }
      } else {
        FlattenAppend(pieces, chunk[..remaining]);
        pieces := pieces + [chunk[..remaining]];
        break;
      }
    }
    assert chunks[..|chunks|] == chunks;
    body := Flatten(pieces);
  }

  /** Chunk i was not the one that ended the aiohttp loop. */
  ghost predicate ReadsOn(chunks: seq<seq<Byte>>, maxBytes: int, i: nat)
    requires i < |chunks|
  {
    SizeOf(chunks, i) < maxBytes && SizeOf(chunks, i + 1) <= maxBytes
  }

  ghost predicate PulledByAiohttp(chunks: seq<seq<Byte>>, maxBytes: int, n: nat) {
    && n <= |chunks|
    && (forall i :: 0 <= i < n - 1 ==> ReadsOn(chunks, maxBytes, i))
    && (n < |chunks| ==> n > 0 && !ReadsOn(chunks, maxBytes, n - 1))
  }

  /** aiohttp pulls exactly one chunk more than httpx iff the stream has another one and the cap is
      reached without cutting a chunk, or is not positive. */
  lemma ExtraChunkIff(chunks: seq<seq<Byte>>, maxBytes: int, p: nat, q: nat)
    requires PulledByHttpx(chunks, maxBytes, p) && PulledByAiohttp(chunks, maxBytes, q)
    ensures q == p || q == p + 1
    ensures q == p + 1 <==> p < |chunks| && (maxBytes <= 0 || SizeOf(chunks, p) == maxBytes)
  {
    assert chunks[..0] == [];
    var expected := if p < |chunks| && (maxBytes <= 0 || SizeOf(chunks, p) == maxBytes) then p + 1 else p;
    assert forall i :: 0 <= i < expected - 1 ==> ReadsOn(chunks, maxBytes, i);
    if expected < |chunks| {
      assert !ReadsOn(chunks, maxBytes, expected - 1);
    }
    assert q == expected;
  }

  /** Where the cap falls within chunk n, or before it. */
  lemma CutAt(chunks: seq<seq<Byte>>, n: nat, maxBytes: int)
    requires n < |chunks|
    ensures Flatten(chunks[..n + 1]) == Flatten(chunks[..n]) + chunks[n]
    ensures SizeOf(chunks, n) == 0 >= maxBytes || SizeOf(chunks, n) == maxBytes ==>
              Flatten(chunks[..n]) == Capped(Flatten(chunks), maxBytes)
    ensures SizeOf(chunks, n) < maxBytes <= SizeOf(chunks, n + 1) ==>
              Flatten(chunks[..n]) + chunks[n][..maxBytes - SizeOf(chunks, n)] == Capped(Flatten(chunks), maxBytes)
  {
    FlattenTake(chunks, n);
    FlattenPrefix(chunks, n);
    FlattenPrefix(chunks, n + 1);
  }

  /** aiohttp: the same bytes, and how many chunks it takes to notice. */
  method ReadAiohttpBodyCapped(chunks: seq<seq<Byte>>, maxBytes: int) returns (body: seq<Byte>, pulled: nat)
    ensures body == Capped(Flatten(chunks), maxBytes)
    ensures PulledByAiohttp(chunks, maxBytes, pulled)
  {
    var received := 0;
    var parts: seq<seq<Byte>> := [];
    pulled := 0;
    while pulled < |chunks|
      invariant 0 <= pulled <= |chunks|
      invariant Flatten(parts) == Flatten(chunks[..pulled]) && received == |Flatten(parts)|
      invariant received == 0 || received <= maxBytes
      invariant forall i :: 0 <= i < pulled ==> ReadsOn(chunks, maxBytes, i)
    {
      var chunk := chunks[pulled];
      CutAt(chunks, pulled, maxBytes);
      pulled := pulled + 1;
      if received >= maxBytes {
        break;
      }
      var remaining := maxBytes - received;
      if |chunk| <= remaining {
        received := received + |chunk|;
        FlattenAppend(parts, chunk);
        parts := parts + [chunk];
      } else {
        FlattenAppend(parts, chunk[..remaining]);
        parts := parts + [chunk[..remaining]];
        break;
      }
    }
    assert chunks[..|chunks|] == chunks;
    body := Flatten(parts);
  }

  // What the functions of the whole stream mean.

  /** A text is handed on iff some line decodes to it and it is not blank. */
  lemma {:induction false} HandedOnHas(lines: seq<seq<Byte>>, decode: seq<Byte> -> string, text: string)
    ensures text in HandedOn(lines, decode) <==> text != "" && exists i :: 0 <= i < |lines| && decode(lines[i]) == text
  {
    if lines != [] {
      HandedOnHas(lines[1..], decode, text);
      assert HandedOn(lines, decode) == Readable(decode(lines[0])) + HandedOn(lines[1..], decode);
      assert forall i :: 0 <= i < |lines| - 1 ==> lines[1..][i] == lines[i + 1];
      assert forall i :: 1 <= i < |lines| ==> lines[i] == lines[1..][i - 1];
    }
  }

  /** When no line is blank, every line is handed on, once and in its place. */
  lemma {:induction false} HandedOnAll(lines: seq<seq<Byte>>, decode: seq<Byte> -> string)
    requires forall i :: 0 <= i < |lines| ==> decode(lines[i]) != ""
    ensures |HandedOn(lines, decode)| == |lines|
    ensures forall i :: 0 <= i < |lines| ==> HandedOn(lines, decode)[i] == decode(lines[i])
  {
    if lines != [] {
      assert forall i :: 0 <= i < |lines| - 1 ==> lines[1..][i] == lines[i + 1];
      HandedOnAll(lines[1..], decode);
      assert HandedOn(lines, decode) == [decode(lines[0])] + HandedOn(lines[1..], decode);
    }
  }

  /** The lines of a stream are what was written between newlines, the last one only if not empty. */
  lemma LinesAreWritten(lines: seq<seq<Byte>>, rest: seq<Byte>)
    requires NEWLINE !in rest && forall i :: 0 <= i < |lines| ==> NEWLINE !in lines[i]
    ensures Lines(Glue(lines, rest)) == if rest == [] then lines else lines + [rest]
  {
    SplitUnique(lines, rest);
  }

  /** A capped stream is its longest prefix within the cap. */
  lemma CappedIs(s: seq<Byte>, cap: int, n: nat)
    requires n <= |s|
    ensures Capped(s, cap) <= s && (cap >= 0 ==> |Capped(s, cap)| <= cap) && (cap < 0 ==> Capped(s, cap) == [])
    ensures n <= cap ==> s[..n] <= Capped(s, cap)
  {
  }
}
