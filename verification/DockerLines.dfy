/** `runDocker`: complete output lines of a child process, assembled from arbitrary chunks. */
module DockerLines {
  // ----- the specification: split the whole text -----

  /** `text.split("\n")`. */
  function Split(text: string): (parts: seq<string>)
    ensures parts != []
  {
    if text == "" then [""]
    else
      var parts := Split(text[..|text| - 1]);
      var c := text[|text| - 1];
      if c == '\n' then parts + [""]
      else parts[..|parts| - 1] + [parts[|parts| - 1] + [c]]
  }

  function Complete(text: string): seq<string> { var parts := Split(text); parts[..|parts| - 1] }

  function Rest(text: string): string { var parts := Split(text); parts[|parts| - 1] }

  /** What `trimEnd` removes. */
  predicate IsSpace(c: char) {
    var u := c as int;
    9 <= u <= 13 || u == 32 || u == 160 || u == 0x1680 || 0x2000 <= u <= 0x200A
    || u == 0x2028 || u == 0x2029 || u == 0x202F || u == 0x205F || u == 0x3000 || u == 0xFEFF
  }

  function TrimEnd(s: string): (t: string)
    ensures t <= s && (t != "" ==> !IsSpace(t[|t| - 1]))
  {
    if s == "" || !IsSpace(s[|s| - 1]) then s else TrimEnd(s[..|s| - 1])
  }

  /** `raw.split("\r").pop()`: what the last carriage return left on the line. */
  function LastRendering(raw: string): (t: string)
    ensures '\r' !in t && |t| <= |raw| && forall c :: c in t ==> c in raw
  {
    if raw == "" then ""
    else if raw[|raw| - 1] == '\r' then ""
    else
      var t := LastRendering(raw[..|raw| - 1]);
      assert forall c :: c in raw[..|raw| - 1] ==> c in raw;
      t + [raw[|raw| - 1]]
  }

  function Render(raw: string): string { TrimEnd(LastRendering(raw)) }

  function Emit(raw: string): seq<string> { if Render(raw) == "" then [] else [Render(raw)] }

  function EmitAll(parts: seq<string>): seq<string> {
    if parts == [] then [] else EmitAll(parts[..|parts| - 1]) + Emit(parts[|parts| - 1])
  }

  /** The lines of a whole text: its parts, rendered, without the empty ones. */
  function Lines(text: string): seq<string> { EmitAll(Split(text)) }

  // ----- what the specification means -----

  function Join(parts: seq<string>): string
    requires parts != []
  {
    if |parts| == 1 then parts[0] else Join(parts[..|parts| - 1]) + "\n" + parts[|parts| - 1]
  }

  /** Splitting loses nothing: the parts, joined by newlines, are the text; and no part holds one. */
  lemma SplitKeepsTheText(text: string)
    ensures Join(Split(text)) == text
    ensures forall p :: p in Split(text) ==> '\n' !in p
  {
    JoinOfSplit(text);
    PartsHaveNoNewline(text);
  }

  lemma {:induction false} JoinOfSplit(text: string)
    ensures Join(Split(text)) == text
  {
    if text != "" {
      var most, c := text[..|text| - 1], text[|text| - 1];
      JoinOfSplit(most);
      var parts := Split(most);
      if c == '\n' {
        JoinEmptyLast(parts);
      } else {
        JoinLonger(parts[..|parts| - 1], parts[|parts| - 1], [c]);
        assert parts[..|parts| - 1] + [parts[|parts| - 1]] == parts;
      }
      assert most + [c] == text;
    }
  }

  lemma {:induction false} PartsHaveNoNewline(text: string)
    ensures forall p :: p in Split(text) ==> '\n' !in p
  {
    if text != "" {
      PartsHaveNoNewline(text[..|text| - 1]);
      var parts := Split(text[..|text| - 1]);
      forall p | p in Split(text) ensures '\n' !in p {
        if p in parts[..|parts| - 1] { assert p in parts; }
        assert parts[|parts| - 1] in parts;
      }
    }
  }

  lemma JoinEmptyLast(parts: seq<string>)
    requires parts != []
    ensures Join(parts + [""]) == Join(parts) + "\n"
  {
    var longer := parts + [""];
    assert longer[..|longer| - 1] == parts;
    assert Join(longer) == Join(parts) + "\n" + "";
  }

  lemma JoinLonger(most: seq<string>, last: string, c: string)
    ensures Join(most + [last + c]) == Join(most + [last]) + c
  {
    JoinLast(most, last);
    JoinLast(most, last + c);
    if most != [] { Regroup(Join(most) + "\n", last, c); }
  }

  lemma JoinLast(most: seq<string>, last: string)
    ensures Join(most + [last]) == if most == [] then last else Join(most) + "\n" + last
  {
    assert (most + [last])[..|most|] == most;
  }

  lemma Regroup(a: string, b: string, c: string)
    ensures a + (b + c) == a + b + c
  {}

  /** The rendering of a line: everything after its last carriage return, without the white space at
      the end. */
  lemma {:induction false} RenderingIsExact(raw: string)
    ensures var last := LastRendering(raw);
            && last == raw[|raw| - |last|..] && '\r' !in last
            && (|last| < |raw| ==> raw[|raw| - |last| - 1] == '\r')
    ensures var t := TrimEnd(LastRendering(raw));
            && t <= LastRendering(raw) && (t != "" ==> !IsSpace(t[|t| - 1]))
            && forall k :: |t| <= k < |LastRendering(raw)| ==> IsSpace(LastRendering(raw)[k])
  {
    LastRenderingIsASuffix(raw);
    OnlySpaceIsTrimmed(LastRendering(raw));
  }

  lemma {:induction false} LastRenderingIsASuffix(raw: string)
    ensures var last := LastRendering(raw);
            && last == raw[|raw| - |last|..]
            && (|last| < |raw| ==> raw[|raw| - |last| - 1] == '\r')
  {
    if raw != "" && raw[|raw| - 1] != '\r' {
      var most := raw[..|raw| - 1];
      LastRenderingIsASuffix(most);
      assert most + [raw[|raw| - 1]] == raw;
    }
  }

  lemma {:induction false} OnlySpaceIsTrimmed(s: string)
    ensures forall k :: |TrimEnd(s)| <= k < |s| ==> IsSpace(s[k])
  {
    if s != "" && IsSpace(s[|s| - 1]) {
      OnlySpaceIsTrimmed(s[..|s| - 1]);
      assert forall k :: 0 <= k < |s| - 1 ==> s[k] == s[..|s| - 1][k];
    }
  }

  /** The lines of a text are the renderings of its parts that are not empty, in order. */
  lemma EmitOne(raw: string)
    ensures EmitAll([raw]) == if Render(raw) != "" then [Render(raw)] else []
  {
    assert [raw][..0] == [];
  }

  // ----- the stream handler -----

  datatype Stream = Stdout | Stderr

  datatype Chunk = Chunk(stream: Stream, text: string)

  datatype Line = Line(stream: Stream, text: string)

  function Of(stream: Stream, lines: seq<Line>): seq<string> {
    if lines == [] then []
    else Of(stream, lines[..|lines| - 1])
         + (if lines[|lines| - 1].stream == stream then [lines[|lines| - 1].text] else [])
  }

  /** The whole decoded text of a stream. */
  function Text(stream: Stream, chunks: seq<Chunk>): string {
    if chunks == [] then ""
    else Text(stream, chunks[..|chunks| - 1])
         + (if chunks[|chunks| - 1].stream == stream then chunks[|chunks| - 1].text else "")
  }

  function Tag(stream: Stream, texts: seq<string>): (lines: seq<Line>)
    ensures |lines| == |texts| && forall i :: 0 <= i < |lines| ==> lines[i] == Line(stream, texts[i])
  {
    seq(|texts|, i requires 0 <= i < |texts| => Line(stream, texts[i]))
  }

  lemma TagConcat(stream: Stream, a: seq<string>, b: seq<string>)
    ensures Tag(stream, a + b) == Tag(stream, a) + Tag(stream, b)
  {}

  lemma EmitMore(start: seq<Line>, stream: Stream, parts: seq<string>, k: nat)
    requires k < |parts|
    ensures start + Tag(stream, EmitAll(parts[..k])) + Tag(stream, Emit(parts[k]))
         == start + Tag(stream, EmitAll(parts[..k + 1]))
  {
    assert parts[..k + 1][..k] == parts[..k];
    assert EmitAll(parts[..k + 1]) == EmitAll(parts[..k]) + Emit(parts[k]);
    TagConcat(stream, EmitAll(parts[..k]), Emit(parts[k]));
  }

  /** `{ stdout: "", stderr: "" }`. */
  datatype Buffers = Buffers(stdout: string, stderr: string) {
    function Get(s: Stream): string { if s == Stdout then stdout else stderr }
    function Set(s: Stream, text: string): Buffers {
      if s == Stdout then this.(stdout := text) else this.(stderr := text)
    }
  }

  /** What has been captured, kept and emitted of a stream is exactly what the chunks so far determine. */
  ghost predicate ConsumedOn(s: Stream, captured: string, pending: string, lines: seq<Line>, chunks: seq<Chunk>) {
    && captured == Text(s, chunks)
    && pending == Rest(Text(s, chunks))
    && Of(s, lines) == EmitAll(Complete(Text(s, chunks)))
  }

  ghost predicate AllConsumed(captured: Buffers, pending: Buffers, lines: seq<Line>, chunks: seq<Chunk>) {
    && ConsumedOn(Stdout, captured.stdout, pending.stdout, lines, chunks)
    && ConsumedOn(Stderr, captured.stderr, pending.stderr, lines, chunks)
  }

  class DockerOutput {
    var captured: Buffers
    var pending: Buffers
    var lines: seq<Line>              // calls of onLine, in order
    ghost var seen: seq<Chunk>        // the chunks so far

    ghost predicate Consumed()
      reads this
    {
      AllConsumed(captured, pending, lines, seen)
    }

    constructor ()
      ensures Consumed() && seen == []
    {
      captured, pending, lines, seen := Buffers("", ""), Buffers("", ""), [], [];
    }

    method EmitLine(stream: Stream, raw: string)
      modifies this`lines
      ensures lines == old(lines) + Tag(stream, Emit(raw))
    {
      var line := Render(raw);
      if line != "" { lines := lines + [Line(stream, line)]; }
    }

    method EmitParts(stream: Stream, parts: seq<string>)
      modifies this`lines
      ensures lines == old(lines) + Tag(stream, EmitAll(parts))
    {
      ghost var start := lines;
      for k := 0 to |parts|
        invariant lines == start + Tag(stream, EmitAll(parts[..k]))
      {
        EmitMore(start, stream, parts, k);
        EmitLine(stream, parts[k]);
      }
      assert parts[..|parts|] == parts;
    }

    /** The `data` handler. */
    method OnData(chunk: Chunk)
      requires Consumed()
      modifies this
      ensures Consumed() && seen == old(seen) + [chunk]
    {
      ghost var before := (captured, pending, lines, seen);
      captured := captured.Set(chunk.stream, captured.Get(chunk.stream) + chunk.text);
      var parts := Split(pending.Get(chunk.stream) + chunk.text);
      pending := pending.Set(chunk.stream, parts[|parts| - 1]);
      EmitParts(chunk.stream, parts[..|parts| - 1]);
      seen := seen + [chunk];
      ChunkIsConsumed(before.0, before.1, before.2, before.3, chunk, captured, pending, lines);
    }

    /** The `data` events of a whole run. */
    method OnChunks(chunks: seq<Chunk>)
      requires Consumed()
      modifies this
      ensures Consumed() && seen == old(seen) + chunks
    {
      ghost var start := seen;
      for k := 0 to |chunks|
        invariant Consumed() && seen == start + chunks[..k]
      {
        OnData(chunks[k]);
        OneMore(start, chunks, k);
      }
      assert chunks[..|chunks|] == chunks;
    }

    /** The `close` handler: the unfinished last lines, stdout first. */
    method OnClose()
      requires Consumed()
      modifies this`lines
      ensures Of(Stdout, lines) == Lines(Text(Stdout, seen)) && Of(Stderr, lines) == Lines(Text(Stderr, seen))
    {
      ghost var before := lines;
      EmitLine(Stdout, pending.stdout);
      EmitLine(Stderr, pending.stderr);
      CloseKeeps(Stdout, seen, before);
      CloseKeeps(Stderr, seen, before);
    }
  }

  /** For every split of the two streams into chunks and every interleaving of them, the lines
      emitted up to close are, per stream and in order, those of the whole text. */
  method RunDockerLines(chunks: seq<Chunk>) returns (lines: seq<Line>)
    ensures Of(Stdout, lines) == Lines(Text(Stdout, chunks)) && Of(Stderr, lines) == Lines(Text(Stderr, chunks))
  {
    var output := new DockerOutput();
    output.OnChunks(chunks);
    assert output.seen == chunks;
    output.OnClose();
    assert output.seen == chunks;
    lines := output.lines;
  }

  // ----- why it works -----

  /** Splitting may stop anywhere: the complete lines are final and the rest is carried over. */
  lemma {:induction false} SplitAppend(a: string, b: string)
    ensures Complete(a + b) == Complete(a) + Complete(Rest(a) + b)
    ensures Rest(a + b) == Rest(Rest(a) + b)
    decreases |b|
  {
    if b == "" {
      assert a + b == a && Rest(a) + b == Rest(a);
      RestIsOneLine(a);
    } else {
      var b', c := b[..|b| - 1], b[|b| - 1];
      assert (a + b)[..|a + b| - 1] == a + b';
      assert (Rest(a) + b)[..|Rest(a) + b| - 1] == Rest(a) + b';
      SplitAppend(a, b');
    }
  }

  lemma {:induction false} RestIsOneLine(a: string)
    ensures Split(Rest(a)) == [Rest(a)]
  {
    if a != "" {
      var parts := Split(a[..|a| - 1]);
      RestIsOneLine(a[..|a| - 1]);
      if a[|a| - 1] != '\n' {
        var rest := parts[|parts| - 1] + [a[|a| - 1]];
        assert rest[..|rest| - 1] == parts[|parts| - 1];
      }
    }
  }

  lemma {:induction false} EmitConcat(a: seq<string>, b: seq<string>)
    ensures EmitAll(a + b) == EmitAll(a) + EmitAll(b)
    decreases |b|
  {
    if b == [] {
      assert a + b == a;
    } else {
      assert (a + b)[..|a + b| - 1] == a + b[..|b| - 1];
      EmitConcat(a, b[..|b| - 1]);
    }
  }

  /** What the handler does with a chunk keeps the bookkeeping of both streams. */
  lemma ChunkIsConsumed(captured: Buffers, pending: Buffers, lines: seq<Line>, seen: seq<Chunk>, chunk: Chunk,
                        captured': Buffers, pending': Buffers, lines': seq<Line>)
    requires AllConsumed(captured, pending, lines, seen)
    requires captured' == captured.Set(chunk.stream, captured.Get(chunk.stream) + chunk.text)
    requires pending' == pending.Set(chunk.stream, Rest(pending.Get(chunk.stream) + chunk.text))
    requires lines' == lines + Tag(chunk.stream, EmitAll(Complete(pending.Get(chunk.stream) + chunk.text)))
    ensures AllConsumed(captured', pending', lines', seen + [chunk])
  {
    var kept := pending.Get(chunk.stream);
    StreamConsumes(Stdout, captured.stdout, pending.stdout, kept, lines, seen, chunk);
    StreamConsumes(Stderr, captured.stderr, pending.stderr, kept, lines, seen, chunk);
  }

  lemma StreamConsumes(s: Stream, captured: string, pending: string, kept: string, lines: seq<Line>, seen: seq<Chunk>,
                       chunk: Chunk)
    requires ConsumedOn(s, captured, pending, lines, seen) && kept == Rest(Text(chunk.stream, seen))
    ensures ConsumedOn(s, if s == chunk.stream then captured + chunk.text else captured,
                       if s == chunk.stream then Rest(kept + chunk.text) else pending,
                       lines + Tag(chunk.stream, EmitAll(Complete(kept + chunk.text))), seen + [chunk])
  {
    ChunkKeeps(s, chunk, seen, lines);
    if s != chunk.stream { assert captured + "" == captured; }
  }

  /** One chunk moves every stream's bookkeeping on. */
  lemma ChunkKeeps(s: Stream, chunk: Chunk, before: seq<Chunk>, lines: seq<Line>)
    requires Of(s, lines) == EmitAll(Complete(Text(s, before)))
    ensures var text := Rest(Text(chunk.stream, before)) + chunk.text;
            var after := before + [chunk];
            && Text(s, after) == Text(s, before) + (if s == chunk.stream then chunk.text else "")
            && Rest(Text(s, after)) == (if s == chunk.stream then Rest(text) else Rest(Text(s, before)))
            && Of(s, lines + Tag(chunk.stream, EmitAll(Complete(text)))) == EmitAll(Complete(Text(s, after)))
  {
    var text := Rest(Text(chunk.stream, before)) + chunk.text;
    assert (before + [chunk])[..|before|] == before;
    Appended(chunk.stream, lines, EmitAll(Complete(text)), s);
    if s == chunk.stream {
      SplitAppend(Text(s, before), chunk.text);
      EmitConcat(Complete(Text(s, before)), Complete(text));
    } else {
      assert Text(s, before + [chunk]) == Text(s, before);
    }
  }

  lemma OneMore(start: seq<Chunk>, chunks: seq<Chunk>, k: nat)
    requires k < |chunks|
    ensures start + chunks[..k] + [chunks[k]] == start + chunks[..k + 1]
  {}

  lemma LinesEnd(text: string)
    ensures Lines(text) == EmitAll(Complete(text)) + Emit(Rest(text))
  {}

  /** The two last lines complete every stream. */
  lemma CloseKeeps(s: Stream, chunks: seq<Chunk>, lines: seq<Line>)
    requires Of(s, lines) == EmitAll(Complete(Text(s, chunks)))
    ensures var out, err := Emit(Rest(Text(Stdout, chunks))), Emit(Rest(Text(Stderr, chunks)));
            Of(s, lines + Tag(Stdout, out) + Tag(Stderr, err)) == Lines(Text(s, chunks))
  {
    var out, err := Emit(Rest(Text(Stdout, chunks))), Emit(Rest(Text(Stderr, chunks)));
    var text := Text(s, chunks);
    LinesEnd(text);
    Appended(Stdout, lines, out, s);
    Appended(Stderr, lines + Tag(Stdout, out), err, s);
    var most := EmitAll(Complete(text));
    assert Of(s, lines + Tag(Stdout, out)) == most + (if s == Stdout then out else []);
    if s == Stdout { assert most + out + [] == most + out; } else { assert most + [] == most; }
  }

  lemma {:induction false} Appended(stream: Stream, lines: seq<Line>, texts: seq<string>, s: Stream)
    ensures Of(s, lines + Tag(stream, texts)) == Of(s, lines) + (if s == stream then texts else [])
    decreases |texts|
  {
    if texts == [] {
      assert lines + Tag(stream, texts) == lines;
    } else {
      var more := lines + Tag(stream, texts);
      var most, last := texts[..|texts| - 1], texts[|texts| - 1];
      assert more[..|more| - 1] == lines + Tag(stream, most) && more[|more| - 1] == Line(stream, last);
      assert Of(s, more) == Of(s, lines + Tag(stream, most)) + (if stream == s then [last] else []);
      Appended(stream, lines, most, s);
      assert texts == most + [last];
    }
  }

  /** An emitted line is never empty, holds no line break, and does not end in white space. */
  lemma LinesAreClean(text: string, line: string)
    requires line in Lines(text)
    ensures line != "" && '\n' !in line && '\r' !in line && !IsSpace(line[|line| - 1])
  {
    SplitKeepsTheText(text);
    var p := EmittedFrom(Split(text), line);
    RenderingIsClean(p);
  }

  lemma RenderingIsClean(raw: string)
    requires '\n' !in raw
    ensures '\n' !in Render(raw) && '\r' !in Render(raw)
    ensures Render(raw) != "" ==> !IsSpace(Render(raw)[|Render(raw)| - 1])
  {
    var last := LastRendering(raw);
    var t := TrimEnd(last);
    assert t == last[..|t|];
  }

  lemma {:induction false} EmittedFrom(parts: seq<string>, line: string) returns (p: string)
    requires line in EmitAll(parts)
    ensures p in parts && line == Render(p) != ""
  {
    p := parts[|parts| - 1];
    if line in EmitAll(parts[..|parts| - 1]) {
      p := EmittedFrom(parts[..|parts| - 1], line);
    }
  }
}
