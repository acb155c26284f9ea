/**
 How the docker runner assembles output lines: text arrives in arbitrary chunks on two streams,
 complete lines are reported as they arrive and the unfinished ones when the process closes.
 */
module DockerLines {
  import opened Common

  datatype Stream = Stdout | Stderr

  // A record with one field per stream.
  datatype PerStream<T> = Streams(stdout: T, stderr: T) {
    function At(s: Stream): T {
      if s.Stdout? then stdout else stderr
    }

    function Put(s: Stream, value: T): PerStream<T> {
      if s.Stdout? then Streams(value, stderr) else Streams(stdout, value)
    }
  }

  type Texts = PerStream<string>

  datatype Outcome = Outcome(code: int, output: Texts)

  // ---------------------------------------------------------------- split

  function Split(s: string, sep: char): (parts: seq<string>)
    ensures |parts| > 0
  {
    if s == "" then [""]
    else Extended(Split(s[..|s| - 1], sep), s[|s| - 1], sep)
  }

  function Extended(parts: seq<string>, c: char, sep: char): (longer: seq<string>)
    requires |parts| > 0
    ensures |longer| > 0
  {
    if c == sep then parts + [""] else parts[|parts| - 1 := parts[|parts| - 1] + [c]]
  }

  function Join(parts: seq<string>, sep: char): string
    requires |parts| > 0
  {
    if |parts| == 1 then parts[0] else Join(parts[..|parts| - 1], sep) + [sep] + parts[|parts| - 1]
  }

  lemma {:induction false} JoinReplaceLast(parts: seq<string>, sep: char, tail: string)
    requires |parts| > 0
    ensures Join(parts[|parts| - 1 := parts[|parts| - 1] + tail], sep) == Join(parts, sep) + tail
  {
    var longer := parts[|parts| - 1 := parts[|parts| - 1] + tail];
    assert longer[..|parts| - 1] == parts[..|parts| - 1];
  }

  lemma {:induction false} ExtendedJoins(parts: seq<string>, c: char, sep: char)
    requires |parts| > 0 && forall part :: part in parts ==> sep !in part
    ensures Join(Extended(parts, c, sep), sep) == Join(parts, sep) + [c]
    ensures forall part :: part in Extended(parts, c, sep) ==> sep !in part
  {
    if c == sep {
      assert (parts + [""])[..|parts|] == parts;
    } else {
      JoinReplaceLast(parts, sep, [c]);
    }
  }

  lemma {:induction false} SplitSnoc(s: string, c: char, sep: char)
    ensures Split(s + [c], sep) == Extended(Split(s, sep), c, sep)
  {
    assert (s + [c])[..|s|] == s;
  }

  /** Split is the one way to write the text as parts without the separator. */
  lemma {:induction false} SplitIsJoinInverse(s: string, sep: char)
    ensures Join(Split(s, sep), sep) == s
    ensures forall part :: part in Split(s, sep) ==> sep !in part
  {
    if s == "" {
      assert Split(s, sep) == [""];
    } else {
      var front, c := s[..|s| - 1], s[|s| - 1];
      SplitIsJoinInverse(front, sep);
      var parts := Split(front, sep);
      ExtendedJoins(parts, c, sep);
      assert Split(s, sep) == Extended(parts, c, sep);
      assert s == front + [c];
    }
  }

  lemma {:induction false} SplitWithout(s: string, sep: char)
    requires sep !in s
    ensures Split(s, sep) == [s]
  {
    if s != "" {
      SplitWithout(s[..|s| - 1], sep);
      assert s == s[..|s| - 1] + [s[|s| - 1]];
    }
  }

  lemma {:induction false} LaterParts(front: seq<string>, parts: seq<string>, c: char, sep: char)
    requires |parts| > 0
    ensures Extended(front + parts, c, sep) == front + Extended(parts, c, sep)
  {
  }

  lemma {:induction false} LastWithout(s: string, sep: char)
    ensures
      var parts := Split(s, sep);
      sep !in parts[|parts| - 1] && Split(parts[|parts| - 1], sep) == [parts[|parts| - 1]]
  {
    SplitIsJoinInverse(s, sep);
    var parts := Split(s, sep);
    assert parts[|parts| - 1] in parts;
    SplitWithout(parts[|parts| - 1], sep);
  }

  // Text appended later only touches the last part.
  lemma {:induction false} SplitAppend(s: string, t: string, sep: char)
    ensures
      var parts := Split(s, sep);
      Split(s + t, sep) == parts[..|parts| - 1] + Split(parts[|parts| - 1] + t, sep)
  {
    var parts := Split(s, sep);
    var last := parts[|parts| - 1];
    if t == "" {
      LastWithout(s, sep);
      assert s + t == s && last + t == last;
    } else {
      var t', c := t[..|t| - 1], t[|t| - 1];
      SplitAppend(s, t', sep);
      SplitSnoc(s + t', c, sep);
      SplitSnoc(last + t', c, sep);
      LaterParts(parts[..|parts| - 1], Split(last + t', sep), c, sep);
      assert s + t == s + t' + [c] && last + t == last + t' + [c];
    }
  }

  lemma {:induction false} SplitIsUnique(parts: seq<string>, sep: char)
    requires |parts| > 0 && forall part :: part in parts ==> sep !in part
    ensures Split(Join(parts, sep), sep) == parts
  {
    var n := |parts| - 1;
    SplitWithout(parts[n], sep);
    if n > 0 {
      var front := Join(parts[..n], sep);
      SplitIsUnique(parts[..n], sep);
      SplitSnoc(front, sep, sep);
      AfterSeparator(front + [sep], parts[..n], parts[n], sep);
    }
  }

  lemma {:induction false} AfterSeparator(s: string, front: seq<string>, last: string, sep: char)
    requires Split(s, sep) == front + [""] && Split(last, sep) == [last]
    ensures Split(s + last, sep) == front + [last]
  {
    SplitAppend(s, last, sep);
    assert "" + last == last;
    assert (front + [""])[..|front|] == front;
  }

  // ---------------------------------------------------------------- the emit filter

  // The white space of ECMAScript's trimEnd.
  predicate IsSpace(c: char) {
    || '\t' <= c <= '\r' || c == ' ' || c == '\U{A0}' || c == '\U{1680}' || '\U{2000}' <= c <= '\U{200A}'
    || c == '\U{2028}' || c == '\U{2029}' || c == '\U{202F}' || c == '\U{205F}' || c == '\U{3000}' || c == '\U{FEFF}'
  }

  function TrimEnd(s: string): string {
    if s == "" || !IsSpace(s[|s| - 1]) then s else TrimEnd(s[..|s| - 1])
  }

  // The text after the last carriage return, without trailing white space.
  function Render(raw: string): string {
    var parts := Split(raw, '\r');
    TrimEnd(parts[|parts| - 1])
  }

  function Rendered(raws: seq<string>): seq<string> {
    if raws == [] then []
    else
      var earlier, line := Rendered(raws[..|raws| - 1]), Render(raws[|raws| - 1]);
      if line == "" then earlier else earlier + [line]
  }

  lemma {:induction false} RenderedConcat(xs: seq<string>, ys: seq<string>)
    ensures Rendered(xs + ys) == Rendered(xs) + Rendered(ys)
  {
    if ys == [] {
      assert xs + ys == xs;
    } else {
      assert (xs + ys)[..|xs + ys| - 1] == xs + ys[..|ys| - 1];
      RenderedConcat(xs, ys[..|ys| - 1]);
    }
  }

  function NonEmpty(): string -> bool {
    (line: string) => line != ""
  }

  /** Every line that does not render empty is reported, in order, and no other. */
  lemma {:induction false} RenderedExactly(raws: seq<string>)
    ensures Rendered(raws) == Filter(seq(|raws|, i requires 0 <= i < |raws| => Render(raws[i])), NonEmpty())
  {
    if raws != [] {
      var all := seq(|raws|, i requires 0 <= i < |raws| => Render(raws[i]));
      var front := raws[..|raws| - 1];
      RenderedExactly(front);
      assert all[..|all| - 1] == seq(|front|, i requires 0 <= i < |front| => Render(front[i]));
    }
  }

  ghost predicate Blank(s: string) {
    forall i :: 0 <= i < |s| ==> IsSpace(s[i])
  }

  // `before` ends at the last carriage return, `after` is the white space trimmed.
  ghost predicate Rendering(raw: string, before: string, line: string, after: string) {
    && raw == before + line + after
    && (before != "" ==> before[|before| - 1] == '\r')
    && '\r' !in line + after
    && Blank(after)
    && (line != "" ==> !IsSpace(line[|line| - 1]))
  }

  lemma {:induction false} TrimmedIsBlank(s: string) returns (after: string)
    ensures s == TrimEnd(s) + after && Blank(after)
    ensures TrimEnd(s) != "" ==> !IsSpace(TrimEnd(s)[|TrimEnd(s)| - 1])
  {
    if s == "" || !IsSpace(s[|s| - 1]) {
      after := "";
    } else {
      after := TrimmedIsBlank(s[..|s| - 1]);
      after := after + [s[|s| - 1]];
    }
  }

  lemma {:induction false} LastPart(raw: string, sep: char) returns (before: string)
    ensures
      var parts := Split(raw, sep);
      && raw == before + parts[|parts| - 1] && sep !in parts[|parts| - 1]
      && (before != "" ==> before[|before| - 1] == sep)
  {
    SplitIsJoinInverse(raw, sep);
    var parts := Split(raw, sep);
    var n := |parts| - 1;
    assert parts[n] in parts;
    before := if n == 0 then "" else Join(parts[..n], sep) + [sep];
  }

  /** What onLine gets is the final rendering of the line, trimmed on the right, and nothing else. */
  lemma {:induction false} RenderIsFinalRendering(raw: string)
    ensures exists before, after :: Rendering(raw, before, Render(raw), after)
  {
    var before := LastPart(raw, '\r');
    var parts := Split(raw, '\r');
    var after := TrimmedIsBlank(parts[|parts| - 1]);
    assert before + Render(raw) + after == before + (Render(raw) + after);
    assert Rendering(raw, before, Render(raw), after);
  }

  // ---------------------------------------------------------------- the runner

  ghost function Complete(text: string): seq<string> {
    var parts := Split(text, '\n');
    parts[..|parts| - 1]
  }

  ghost function Unfinished(text: string): string {
    var parts := Split(text, '\n');
    parts[|parts| - 1]
  }

  lemma {:induction false} CompleteThenLast(text: string)
    ensures Rendered(Split(text, '\n')) == Rendered(Complete(text)) + Rendered([Unfinished(text)])
  {
    assert Split(text, '\n') == Complete(text) + [Unfinished(text)];
    RenderedConcat(Complete(text), [Unfinished(text)]);
  }

  // One more chunk: the parts of pending text plus chunk are what it completes and leaves.
  lemma {:induction false} ChunkCompletes(seen: string, text: string)
    ensures
      var parts := Split(Unfinished(seen) + text, '\n');
      && Unfinished(seen + text) == parts[|parts| - 1]
      && Due(seen + text, false) == Due(seen, false) + Rendered(parts[..|parts| - 1])
  {
    SplitAppend(seen, text, '\n');
    var parts := Split(Unfinished(seen) + text, '\n');
    assert Complete(seen + text) == Complete(seen) + parts[..|parts| - 1];
    RenderedConcat(Complete(seen), parts[..|parts| - 1]);
  }

  // What onLine has been given of a stream's text: its complete lines, at close all of them.
  ghost function Due(text: string, closed: bool): seq<string> {
    if closed then Rendered(Split(text, '\n')) else Rendered(Complete(text))
  }

  class DockerRun {
    var captured: Texts
    var pending: Texts
    var settled: Option<Outcome>
    var closed: bool
    // Per stream, all its text and the lines given to onLine; whether a spawn error was reported.
    ghost var received: Texts
    ghost var lines: PerStream<seq<string>>
    ghost var spawnFailed: bool

    ghost predicate Valid()
      reads this
    {
      && (!spawnFailed ==> captured == received)
      && pending == Streams(Unfinished(received.stdout), Unfinished(received.stderr))
      && lines == Streams(Due(received.stdout, closed), Due(received.stderr, closed))
    }

    constructor ()
      ensures Valid() && received == captured == Streams("", "") && settled == None && !closed && !spawnFailed
    {
      captured, pending, received := Streams("", ""), Streams("", ""), Streams("", "");
      settled, closed, spawnFailed, lines := None, false, false, Streams([], []);
      assert Complete("") == [] && Unfinished("") == "";
    }

    // Only the first outcome is kept.
    method Finish(code: int)
      modifies this`settled
      ensures settled == if old(settled).Some? then old(settled) else Some(Outcome(code, captured))
    {
      if settled.Some? {
        return;
      }
      settled := Some(Outcome(code, captured));
    }

    method Emit(stream: Stream, raw: string)
      modifies this`lines
      ensures lines == old(lines).Put(stream, lines.At(stream)) && lines.At(stream) == old(lines).At(stream) + Rendered([raw])
    {
      var parts := Split(raw, '\r');
      var line := TrimEnd(parts[|parts| - 1]);
      assert [raw][..0] == [];
      if line != "" {
        lines := lines.Put(stream, lines.At(stream) + [line]);
      }
    }

    method EmitAll(stream: Stream, parts: seq<string>)
      modifies this`lines
      ensures lines == old(lines).Put(stream, lines.At(stream)) && lines.At(stream) == old(lines).At(stream) + Rendered(parts)
    {
      for i := 0 to |parts|
        invariant lines == old(lines).Put(stream, lines.At(stream))
        invariant lines.At(stream) == old(lines).At(stream) + Rendered(parts[..i])
      {
        assert parts[..i + 1] == parts[..i] + [parts[i]];
        RenderedConcat(parts[..i], [parts[i]]);
        Emit(stream, parts[i]);
      }
      assert parts[..|parts|] == parts;
    }

    /** The "data" callback of one stream. */
    method OnData(stream: Stream, text: string)
      requires Valid() && !closed
      modifies this`captured, this`pending, this`received, this`lines
      ensures Valid() && received == old(received).Put(stream, old(received).At(stream) + text)
      ensures captured == old(captured).Put(stream, old(captured).At(stream) + text)
    {
      ghost var seen := received.At(stream);
      ChunkCompletes(seen, text);
      received := received.Put(stream, seen + text);
      captured := captured.Put(stream, captured.At(stream) + text);
      var parts := Split(pending.At(stream) + text, '\n');
      pending := pending.Put(stream, parts[|parts| - 1]);
      EmitAll(stream, parts[..|parts| - 1]);
      assert lines.At(stream) == Due(seen + text, false) && pending.At(stream) == Unfinished(seen + text);
    }

    /** The "error" callback: its message joins the captured stderr and is never a line. */
    method OnError(message: string)
      requires Valid() && !closed
      modifies this`captured, this`settled, this`spawnFailed
      ensures Valid() && captured == old(captured).Put(Stderr, old(captured).stderr + message)
      ensures settled == if old(settled).Some? then old(settled) else Some(Outcome(1, captured))
    {
      spawnFailed := true;
      captured := captured.(stderr := captured.stderr + message);
      Finish(1);
    }

    /** The timeout (124) and the abort (130); the close of the killed process still follows. */
    method Terminate(code: int)
      requires Valid()
      modifies this`settled
      ensures Valid()
      ensures settled == if old(settled).Some? then old(settled) else Some(Outcome(code, captured))
    {
      Finish(code);
    }

    /**
     The "close" callback: by now, on each stream, onLine has had the lines of the whole text
     in order, however the text was cut into chunks.
     */
    method OnClose(code: Option<int>)
      requires Valid() && !closed
      modifies this`lines, this`settled, this`closed
      ensures Valid() && closed
      ensures lines == Streams(Rendered(Split(received.stdout, '\n')), Rendered(Split(received.stderr, '\n')))
      ensures settled == if old(settled).Some? then old(settled)
                         else Some(Outcome(if code.Some? then code.value else 1, captured))
    {
      CompleteThenLast(received.stdout);
      CompleteThenLast(received.stderr);
      Emit(Stdout, pending.stdout);
      Emit(Stderr, pending.stderr);
      closed := true;
      Finish(if code.Some? then code.value else 1);
    }
  }
}
