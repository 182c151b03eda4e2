/** `forwardHandshake`: the upstream's response head arrives in chunks; it is forwarded, without its
    sensitive headers, at the chunk that completes the blank line (section 2.1 of RFC 9112).
    Bytes are Latin-1 characters, as in the original. */
module Handshake {
  import opened Wrappers

  const CRLF: string := "\r\n"
  const BOUNDARY: string := "\r\n\r\n"
  const MAX_HEAD: nat := 65_536

  predicate BoundaryAt(s: string, i: int) {
    0 <= i <= |s| - 4 && s[i] == '\r' && s[i + 1] == '\n' && s[i + 2] == '\r' && s[i + 3] == '\n'
  }

  ghost predicate HasBoundary(s: string) { exists i :: BoundaryAt(s, i) }

  /** `indexOf("\r\n\r\n")` from a position on. */
  function IndexOf(s: string, from: nat): (i: Option<nat>)
    requires from <= |s|
    ensures i.Some? ==> from <= i.value && BoundaryAt(s, i.value)
    ensures i.Some? ==> forall j :: from <= j < i.value ==> !BoundaryAt(s, j)
    ensures i.None? ==> forall j :: from <= j ==> !BoundaryAt(s, j)
    decreases |s| - from
  {
    if from + 4 > |s| then None
    else if BoundaryAt(s, from) then Some(from)
    else IndexOf(s, from + 1)
  }

  /** `subarray(-3)`. */
  function Last3(s: string): string { if |s| <= 3 then s else s[|s| - 3..] }

  function Concat(chunks: seq<string>): string {
    if chunks == [] then "" else Concat(chunks[..|chunks| - 1]) + chunks[|chunks| - 1]
  }

  // ----- stripping headers -----

  /** `split("\r\n")`. */
  function SplitCrlf(s: string): (lines: seq<string>)
    ensures lines != [] && lines[0] <= s
    decreases |s|
  {
    if |s| >= 2 && s[..2] == CRLF then [""] + SplitCrlf(s[2..])
    else if s == "" then [""]
    else
      var rest := SplitCrlf(s[1..]);
      [[s[0]] + rest[0]] + rest[1..]
  }

  function Join(lines: seq<string>): string
    requires lines != []
  {
    if |lines| == 1 then lines[0] else lines[0] + CRLF + Join(lines[1..])
  }

  predicate IsSpace(c: char) { 9 <= c as int <= 13 || c == ' ' || c as int == 160 }

  function TrimStart(s: string): string { if s != "" && IsSpace(s[0]) then TrimStart(s[1..]) else s }

  function TrimEnd(s: string): string { if s != "" && IsSpace(s[|s| - 1]) then TrimEnd(s[..|s| - 1]) else s }

  function Lower(s: string): string {
    if s == "" then "" else [if 'A' <= s[0] <= 'Z' then (s[0] as int + 32) as char else s[0]] + Lower(s[1..])
  }

  function BeforeColon(line: string): string {
    if line == "" || line[0] == ':' then "" else [line[0]] + BeforeColon(line[1..])
  }

  predicate Sensitive(line: string) {
    Lower(TrimEnd(TrimStart(BeforeColon(line)))) in {"clear-site-data", "set-cookie", "set-cookie2"}
  }

  function SafeLines(lines: seq<string>): (kept: seq<string>)
    ensures forall l :: l in kept ==> l in lines && !Sensitive(l)
  {
    if lines == [] then []
    else if Sensitive(lines[0]) then SafeLines(lines[1..])
    else [lines[0]] + SafeLines(lines[1..])
  }

  /** `stripSensitiveHandshakeHeaders`. */
  function StripSensitive(response: string): (safe: Option<string>)
    ensures safe.None? <==> IndexOf(response, 0).None?
  {
    var end := IndexOf(response, 0);
    if end.None? then None
    else
      var lines := SplitCrlf(response[..end.value]);
      Some(Join([lines[0]] + SafeLines(lines[1..])) + BOUNDARY + response[end.value + 4..])
  }

  // ----- the handler -----

  datatype Phase = Collecting | Forwarded(head: string) | Destroyed

  /** What must have happened once these chunks have arrived, decided on the whole prefix. */
  function Outcome(chunks: seq<string>): Phase {
    if chunks == [] then Collecting
    else
      var before := Outcome(chunks[..|chunks| - 1]);
      var whole := Concat(chunks);
      if before != Collecting then before
      else if |whole| > MAX_HEAD then Destroyed
      else if StripSensitive(whole).Some? then Forwarded(StripSensitive(whole).value)
      else Collecting
  }

  class HandshakeForwarder {
    var phase: Phase
    var responseChunks: seq<string>
    var responseSize: nat
    var responseTail: string

    ghost predicate Valid()
      reads this
    {
      phase == Collecting ==>
        && Outcome(responseChunks) == Collecting
        && responseSize == |Concat(responseChunks)|
        && responseTail == Last3(Concat(responseChunks))
        && !HasBoundary(Concat(responseChunks))
    }

    constructor ()
      ensures Valid() && phase == Collecting && responseChunks == []
    {
      phase, responseChunks, responseSize, responseTail := Collecting, [], 0, "";
    }

    /** One `data` event. The tail search decides exactly what a search of everything received so
        far would, and the branch for a head without a boundary is never taken. */
    method ForwardHandshake(chunk: string)
      requires Valid() && phase == Collecting
      modifies this
      ensures Valid() && responseChunks == old(responseChunks) + [chunk]
      ensures phase == Outcome(responseChunks)
    {
      ghost var received := Concat(responseChunks);
      responseChunks := responseChunks + [chunk];
      assert responseChunks[..|responseChunks| - 1] == old(responseChunks);
      responseSize := responseSize + |chunk|;
      if responseSize > MAX_HEAD {
        phase := Destroyed;
        return;
      }
      var boundarySearch := responseTail + chunk;
      TailSearch(received, chunk);
      if IndexOf(boundarySearch, 0).None? {
        assert !HasBoundary(received + chunk);
        responseTail := Last3(boundarySearch);
        return;
      }
      var safe := StripSensitive(Concat(responseChunks));
      if safe.None? { assert false; }
      phase := Forwarded(safe.value);
    }
  }

  /** For every chunking: the handshake is decided at the same chunk, and with the same head, as by
      searching the whole prefix. */
  method RunHandshake(chunks: seq<string>) returns (phase: Phase)
    ensures phase == Outcome(chunks)
  {
    var forwarder := new HandshakeForwarder();
    for k := 0 to |chunks|
      invariant fresh(forwarder) && forwarder.Valid()
      invariant forwarder.phase == Outcome(chunks[..k])
      invariant forwarder.phase == Collecting ==> forwarder.responseChunks == chunks[..k]
    {
      assert chunks[..k + 1] == chunks[..k] + [chunks[k]];
      if forwarder.phase == Collecting {
        forwarder.ForwardHandshake(chunks[k]);
      }
    }
    assert chunks[..|chunks|] == chunks;
    phase := forwarder.phase;
  }

  // ----- why it works -----

  /** Three carried bytes are enough: a boundary not in the old text overlaps the tail. */
  lemma TailSearch(a: string, b: string)
    requires !HasBoundary(a)
    ensures HasBoundary(a + b) <==> HasBoundary(Last3(a) + b)
    ensures Last3(Last3(a) + b) == Last3(a + b)
  {
    if i :| BoundaryAt(a + b, i) {
      var j := i - (|a| - |Last3(a)|);
      assert i + 4 <= |a| ==> BoundaryAt(a, i);
      assert BoundaryAt(Last3(a) + b, j);
    }
    if i :| BoundaryAt(Last3(a) + b, i) {
      assert BoundaryAt(a + b, i + (|a| - |Last3(a)|));
    }
  }

  /** The handler is still collecting exactly while everything received is within the cap and holds
      no boundary: how it was cut into chunks does not matter. */
  lemma {:induction false} CollectingMeansNoBoundary(chunks: seq<string>)
    ensures Outcome(chunks) == Collecting <==> |Concat(chunks)| <= MAX_HEAD && !HasBoundary(Concat(chunks))
    decreases |chunks|
  {
    if chunks != [] {
      var before := chunks[..|chunks| - 1];
      CollectingMeansNoBoundary(before);
      if i :| BoundaryAt(Concat(before), i) { assert BoundaryAt(Concat(chunks), i); }
    }
  }

  /** The head forwarded is that of the first prefix with a boundary, and only if that prefix is
      within the cap. */
  lemma {:induction false} ForwardedAtTheFirstBoundary(chunks: seq<string>) returns (k: nat)
    requires Outcome(chunks).Forwarded?
    ensures k < |chunks| && Outcome(chunks[..k]) == Collecting
    ensures HasBoundary(Concat(chunks[..k + 1])) && |Concat(chunks[..k + 1])| <= MAX_HEAD
    ensures StripSensitive(Concat(chunks[..k + 1])) == Some(Outcome(chunks).head)
    decreases |chunks|
  {
    k := |chunks| - 1;
    var before := chunks[..k];
    if Outcome(before) != Collecting {
      k := ForwardedAtTheFirstBoundary(before);
      assert before[..k] == chunks[..k] && before[..k + 1] == chunks[..k + 1];
    } else {
      assert chunks[..k + 1] == chunks;
    }
  }

  /** Splitting at line ends and joining is the identity. */
  lemma {:induction false} JoinSplit(s: string)
    ensures Join(SplitCrlf(s)) == s
    decreases |s|
  {
    if |s| >= 2 && s[..2] == CRLF {
      JoinSplit(s[2..]);
      JoinEmpty(SplitCrlf(s[2..]));
      assert s == CRLF + s[2..];
    } else if s != "" {
      JoinSplit(s[1..]);
      JoinLonger(s[0], SplitCrlf(s[1..]));
      assert s == [s[0]] + s[1..];
    }
  }

  lemma JoinEmpty(lines: seq<string>)
    requires lines != []
    ensures Join([""] + lines) == CRLF + Join(lines)
  {
    assert ([""] + lines)[1..] == lines;
  }

  lemma JoinLonger(c: char, lines: seq<string>)
    requires lines != []
    ensures Join([[c] + lines[0]] + lines[1..]) == [c] + Join(lines)
  {
    var longer := [[c] + lines[0]] + lines[1..];
    assert longer[1..] == lines[1..];
    if |lines| > 1 { assert [c] + lines[0] + CRLF + Join(lines[1..]) == [c] + (lines[0] + CRLF + Join(lines[1..])); }
  }

  lemma {:induction false} NothingSensitive(lines: seq<string>)
    requires forall l :: l in lines ==> !Sensitive(l)
    ensures SafeLines(lines) == lines
  {
    if lines != [] { NothingSensitive(lines[1..]); }
  }

  lemma Reassemble(s: string, i: nat)
    requires BoundaryAt(s, i)
    ensures s == s[..i] + BOUNDARY + s[i + 4..]
  {
    assert s[i..i + 4] == BOUNDARY;
  }

  /** A response whose head holds no sensitive header is forwarded byte for byte. */
  lemma HarmlessResponseIsUnchanged(response: string, end: nat)
    requires IndexOf(response, 0) == Some(end)
    requires forall l :: l in SplitCrlf(response[..end])[1..] ==> !Sensitive(l)
    ensures StripSensitive(response) == Some(response)
  {
    var lines := SplitCrlf(response[..end]);
    NothingSensitive(lines[1..]);
    JoinSplit(response[..end]);
    assert [lines[0]] + lines[1..] == lines;
    Reassemble(response, end);
  }

  // ----- what stripping is for -----

  predicate CrlfAt(s: string, i: int) { 0 <= i <= |s| - 2 && s[i] == '\r' && s[i + 1] == '\n' }

  /** A line holds no line end. */
  ghost predicate Plain(line: string) { forall i :: !CrlfAt(line, i) }

  /** The lines of a head: no line end inside, and none empty after the first. */
  ghost predicate HeadLike(lines: seq<string>) {
    lines != [] && (forall l :: l in lines ==> Plain(l)) && forall k :: 1 <= k < |lines| ==> lines[k] != ""
  }

  lemma {:induction false} SplitsArePlain(s: string)
    ensures forall l :: l in SplitCrlf(s) ==> Plain(l)
    decreases |s|
  {
    if |s| >= 2 && s[..2] == CRLF {
      SplitsArePlain(s[2..]);
    } else if s != "" {
      SplitsArePlain(s[1..]);
      var rest := SplitCrlf(s[1..]);
      PlainGrows(s, rest[0]);
      assert forall l :: l in rest[1..] ==> l in rest;
    }
  }

  lemma PlainGrows(s: string, line: string)
    requires s != "" && !CrlfAt(s, 0) && line <= s[1..] && Plain(line)
    ensures Plain([s[0]] + line)
  {
    forall i ensures !CrlfAt([s[0]] + line, i) {
      if i > 0 { assert !CrlfAt(line, i - 1); }
      if i == 0 && |line| > 0 { assert line[0] == s[1]; }
    }
  }

  lemma {:induction false} SplitLine(line: string, rest: string)
    requires Plain(line)
    ensures SplitCrlf(line + CRLF + rest) == [line] + SplitCrlf(rest)
    decreases |line|
  {
    var s := line + CRLF + rest;
    if line == "" {
      assert s[..2] == CRLF && s[2..] == rest;
    } else {
      assert !CrlfAt(line, 0);
      assert s[..2][0] == line[0] && s[..2][1] == if |line| > 1 then line[1] else '\r';
      assert s[1..] == line[1..] + CRLF + rest;
      forall i ensures !CrlfAt(line[1..], i) { assert i >= 0 ==> !CrlfAt(line, i + 1); }
      SplitLine(line[1..], rest);
      assert [line[0]] + line[1..] == line;
    }
  }

  lemma {:induction false} SplitLast(line: string)
    requires Plain(line)
    ensures SplitCrlf(line) == [line]
  {
    if line != "" {
      assert !CrlfAt(line, 0);
      forall i ensures !CrlfAt(line[1..], i) { assert i >= 0 ==> !CrlfAt(line, i + 1); }
      SplitLast(line[1..]);
      assert [line[0]] + line[1..] == line;
    }
  }

  /** Joining plain lines and splitting at line ends gives the lines back. */
  lemma {:induction false} SplitJoin(lines: seq<string>)
    requires lines != [] && forall l :: l in lines ==> Plain(l)
    ensures SplitCrlf(Join(lines)) == lines
  {
    if |lines| == 1 {
      SplitLast(lines[0]);
    } else {
      SplitJoin(lines[1..]);
      SplitLine(lines[0], Join(lines[1..]));
      assert [lines[0]] + lines[1..] == lines;
    }
  }

  /** If no blank line comes before the end of a head, its lines after the first are not empty. */
  lemma {:induction false} LinesAreNotEmpty(head: string)
    requires forall j :: !BoundaryAt(head + CRLF, j)
    ensures forall k :: 1 <= k < |SplitCrlf(head)| ==> SplitCrlf(head)[k] != ""
    decreases |head|
  {
    if |head| >= 2 && head[..2] == CRLF {
      var rest := head[2..];
      assert head + CRLF == CRLF + (rest + CRLF);
      forall j ensures !BoundaryAt(rest + CRLF, j) { assert j >= 0 ==> !BoundaryAt(head + CRLF, j + 2); }
      LinesAreNotEmpty(rest);
      assert !BoundaryAt(head + CRLF, 0);
      FirstLineNotEmpty(rest);
    } else if head != "" {
      forall j ensures !BoundaryAt(head[1..] + CRLF, j) { assert j >= 0 ==> !BoundaryAt(head + CRLF, j + 1); }
      LinesAreNotEmpty(head[1..]);
    }
  }

  lemma FirstLineNotEmpty(s: string)
    requires s != "" && !CrlfAt(s, 0)
    ensures SplitCrlf(s)[0] != ""
  {}

  /** Joined lines hold no blank line before the one that ends them. */
  lemma {:induction false} FirstBoundary(lines: seq<string>, tail: string, j: int)
    requires HeadLike(lines)
    requires 0 <= j < |Join(lines)|
    ensures !BoundaryAt(Join(lines) + BOUNDARY + tail, j)
  {
    var s := Join(lines) + BOUNDARY + tail;
    var line := lines[0];
    assert line in lines && !CrlfAt(line, j);
    if |lines| > 1 {
      var rest := lines[1..];
      var after := Join(rest) + BOUNDARY + tail;
      assert s == line + CRLF + after;
      if j >= |line| + 2 {
        FirstBoundary(rest, tail, j - |line| - 2);
        assert s[j..] == after[j - |line| - 2..];
        SameBoundary(s, after, |line| + 2, j - |line| - 2);
      } else if j == |line| {
        NoCrlfFirst(rest, BOUNDARY + tail);
        assert after == Join(rest) + (BOUNDARY + tail);
        SameCrlf(s, after, |line| + 2, 0);
      }
    }
  }

  lemma SameBoundary(s: string, after: string, n: nat, j: nat)
    requires n <= |s| && s[n..] == after
    ensures BoundaryAt(s, n + j) <==> BoundaryAt(after, j)
  {
    assert forall i :: 0 <= i < |after| ==> after[i] == s[n + i];
  }

  lemma SameCrlf(s: string, after: string, n: nat, j: nat)
    requires n <= |s| && s[n..] == after
    ensures CrlfAt(s, n + j) <==> CrlfAt(after, j)
  {
    assert forall i :: 0 <= i < |after| ==> after[i] == s[n + i];
  }

  lemma NoCrlfFirst(lines: seq<string>, tail: string)
    requires lines != [] && lines[0] != "" && Plain(lines[0]) && CRLF <= tail
    ensures !CrlfAt(Join(lines) + tail, 0)
  {
    var line := lines[0];
    assert !CrlfAt(line, 0);
    assert (Join(lines) + tail)[0] == line[0];
    assert (Join(lines) + tail)[1] == if |line| > 1 then line[1] else '\r';
  }

  /** The forwarded head, split again at its own blank line, is the first line and the harmless ones:
      nothing sensitive is left after the first line, and what follows the head is untouched. */
  lemma StrippedHeadIsSafe(response: string, end: nat)
    requires IndexOf(response, 0) == Some(end)
    ensures var safe := StripSensitive(response).value;
            var lines := SplitCrlf(response[..end]);
            && IndexOf(safe, 0).Some?
            && var e := IndexOf(safe, 0).value;
            && SplitCrlf(safe[..e]) == [lines[0]] + SafeLines(lines[1..])
            && (forall l :: l in SplitCrlf(safe[..e])[1..] ==> !Sensitive(l))
            && safe[e + 4..] == response[end + 4..]
  {
    var head := response[..end];
    var lines := SplitCrlf(head);
    var kept := [lines[0]] + SafeLines(lines[1..]);
    var tail := response[end + 4..];
    var safe := Join(kept) + BOUNDARY + tail;
    KeptLines(response, end);
    var e := |Join(kept)|;
    assert BoundaryAt(safe, e);
    forall j | 0 <= j < e ensures !BoundaryAt(safe, j) { FirstBoundary(kept, tail, j); }
    assert IndexOf(safe, 0) == Some(e);
    assert safe[..e] == Join(kept) && safe[e + 4..] == tail;
    SplitJoin(kept);
    assert kept[1..] == SafeLines(lines[1..]);
  }

  lemma KeptLines(response: string, end: nat)
    requires IndexOf(response, 0) == Some(end)
    ensures var lines := SplitCrlf(response[..end]); HeadLike([lines[0]] + SafeLines(lines[1..]))
  {
    HeadLines(response, end);
    StaysHeadLike(SplitCrlf(response[..end]));
  }

  lemma StaysHeadLike(lines: seq<string>)
    requires HeadLike(lines)
    ensures HeadLike([lines[0]] + SafeLines(lines[1..]))
  {
    var kept := [lines[0]] + SafeLines(lines[1..]);
    assert forall l :: l in lines[1..] ==> l in lines;
    assert forall l :: l in kept ==> l in lines;
    forall k | 1 <= k < |kept| ensures kept[k] != "" {
      assert kept[k] in SafeLines(lines[1..]);
      var i :| 0 <= i < |lines[1..]| && lines[1..][i] == kept[k];
      assert lines[i + 1] == kept[k];
    }
  }

  lemma HeadLines(response: string, end: nat)
    requires IndexOf(response, 0) == Some(end)
    ensures HeadLike(SplitCrlf(response[..end]))
  {
    var head := response[..end];
    SplitsArePlain(head);
    forall j ensures !BoundaryAt(head + CRLF, j) {
      assert head + CRLF == response[..end + 2];
      if BoundaryAt(head + CRLF, j) { assert BoundaryAt(response, j); }
    }
    LinesAreNotEmpty(head);
  }

  /** Stripping twice is stripping once. */
  lemma StripIsIdempotent(response: string)
    requires StripSensitive(response).Some?
    ensures StripSensitive(StripSensitive(response).value) == StripSensitive(response)
  {
    var safe := StripSensitive(response).value;
    StrippedHeadIsSafe(response, IndexOf(response, 0).value);
    HarmlessResponseIsUnchanged(safe, IndexOf(safe, 0).value);
  }

  // ----- which headers go -----

  /** Every header is kept or dropped by itself: the harmless ones stay, each as often as it occurs and
      in order. */
  lemma {:induction false} SafeParts(a: seq<string>, b: seq<string>)
    ensures SafeLines(a + b) == SafeLines(a) + SafeLines(b)
  {
    if a == [] {
      assert a + b == b;
    } else {
      SafeParts(a[1..], b);
      SafeFirst(a, b);
      JoinRegroups(SafeOne(a[0]), SafeLines(a[1..]), SafeLines(b));
    }
  }

  lemma JoinRegroups(x: seq<string>, y: seq<string>, z: seq<string>)
    ensures x + (y + z) == (x + y) + z
  {}

  lemma SafeFirst(a: seq<string>, b: seq<string>)
    requires a != []
    ensures (a + b)[0] == a[0] && SafeLines(a + b) == SafeOne(a[0]) + SafeLines(a[1..] + b)
    ensures SafeLines(a) == SafeOne(a[0]) + SafeLines(a[1..])
  {
    assert (a + b)[1..] == a[1..] + b;
  }

  function SafeOne(line: string): seq<string> { if Sensitive(line) then [] else [line] }

  lemma SafeLine(line: string)
    ensures SafeLines([line]) == if Sensitive(line) then [] else [line]
  {}

  predicate Blank(s: string) { forall c :: c in s ==> IsSpace(c) }

  /** A header name: not empty, without a colon, and without white space at its ends. */
  predicate IsName(name: string) {
    name != "" && ':' !in name && !IsSpace(name[0]) && !IsSpace(name[|name| - 1])
  }

  /** A header is sensitive if and only if its name, whatever white space and case it is written with,
      is one of three. */
  lemma SensitiveNames(left: string, name: string, right: string, rest: string)
    requires Blank(left) && IsName(name) && Blank(right) && (rest == "" || rest[0] == ':')
    ensures Sensitive(left + name + right + rest)
            <==> Lower(name) in {"clear-site-data", "set-cookie", "set-cookie2"}
  {
    var before := left + name + right;
    assert ':' !in left && ':' !in right;
    BeforeTheColon(before, rest);
    TrimLeft(left, name + right);
    assert left + name + right == left + (name + right);
    TrimRight(name, right);
  }

  lemma {:induction false} BeforeTheColon(before: string, rest: string)
    requires ':' !in before && (rest == "" || rest[0] == ':')
    ensures BeforeColon(before + rest) == before
  {
    if before == "" {
      assert before + rest == rest;
    } else {
      assert (before + rest)[1..] == before[1..] + rest;
      BeforeTheColon(before[1..], rest);
    }
  }

  lemma {:induction false} TrimLeft(left: string, s: string)
    requires Blank(left) && (s == "" || !IsSpace(s[0]))
    ensures TrimStart(left + s) == s
  {
    if left == "" {
      assert left + s == s;
    } else {
      assert left[0] in left && (left + s)[1..] == left[1..] + s;
      assert Blank(left[1..]);
      TrimLeft(left[1..], s);
    }
  }

  lemma {:induction false} TrimRight(s: string, right: string)
    requires Blank(right) && (s == "" || !IsSpace(s[|s| - 1]))
    ensures TrimEnd(s + right) == s
    decreases |right|
  {
    if right == "" {
      assert s + right == s;
    } else {
      var most := right[..|right| - 1];
      assert right[|right| - 1] in right && (s + right)[..|s + right| - 1] == s + most;
      assert Blank(most);
      TrimRight(s, most);
    }
  }

  /** Lower-casing changes ASCII capitals only. */
  lemma {:induction false} LowerByCharacter(s: string, k: nat)
    requires k < |s|
    ensures |Lower(s)| == |s|
    ensures 'A' <= s[k] <= 'Z' ==> Lower(s)[k] as int == s[k] as int + 32
    ensures !('A' <= s[k] <= 'Z') ==> Lower(s)[k] == s[k]
  {
    if |s| > 1 { LowerByCharacter(s[1..], if k == 0 then 0 else k - 1); }
  }
}
