/**
 * The incremental reader of server-sent events (sse-client.ts), against a
 * parse of the whole text.
 */
module SseReader {
  import opened Common

  const MAX_EVENT_BUFFER: nat := 1024 * 1024

  // A field of a parsed event, as far as the reader looks at it.
  datatype Field = Absent | IsTrue | IsFalse | OtherValue

  datatype Json = Invalid | NotObject | Object(content: string, done: Field, success: Field, typeDone: bool) {
    predicate Terminal() {
      Object? && (done.IsTrue? || typeDone)
    }
  }

  // JSON.parse of the joined data lines is a parameter.
  type Parser = string -> Json

  datatype Error = SizeLimit | BadJson | InvalidEvent | MissingResult | NoTerminalEvent | ReadFailed

  datatype Outcome = Success | Failed | Interrupted(error: Error) | Cancelled

  datatype Result = Result(events: seq<Json>, outcome: Outcome)

  // How the stream goes on after the last chunk.
  datatype Ending = Completed | Broken | Aborted

  // Between two lines: pending data lines, size of the event so far, delivered events.
  datatype Machine = Machine(data: seq<string>, size: nat, events: seq<Json>)

  datatype Progress = Going(machine: Machine) | Over(result: Result)

  const START := Machine([], 0, [])

  function Stop(events: seq<Json>, error: Error): Result {
    Result(events, Interrupted(error))
  }

  function Join(lines: seq<string>): string {
    if lines == [] then "" else if |lines| == 1 then lines[0] else lines[0] + "\n" + Join(lines[1..])
  }

  function Dispatch(m: Machine, parse: Parser): Progress {
    var json := parse(Join(m.data));
    if json.Invalid? then Over(Stop(m.events, BadJson))
    else if json.NotObject? then Over(Stop(m.events, InvalidEvent))
    else if json.done.IsTrue? && !json.success.IsTrue?
      && !json.success.IsFalse? then Over(Stop(m.events, MissingResult))
    else if json.Terminal() then Over(Result(m.events + [json], if json.success.IsFalse? then Failed else Success))
    else Going(Machine([], 0, m.events + [json]))
  }

  function DataOf(line: string): string
    requires |line| >= 5
  {
    var rest := line[5..];
    if rest != "" && rest[0] == ' ' then rest[1..] else rest
  }

  // One complete line.
  function FeedLine(m: Machine, line: string, parse: Parser): Progress {
    if m.size + |line| > MAX_EVENT_BUFFER then Over(Stop(m.events, SizeLimit))
    else if line == "" then
      if m.data == [] then Going(m.(size := 0)) else Dispatch(m, parse)
    else if |line| >= 5 && line[..5] == "data:" then
      Going(m.(data := m.data + [DataOf(line)], size := m.size + |line|))
    else Going(m.(size := m.size + |line|))
  }

  // ── Whole-text parse ─────────────────────────────────────────────────────

  // Every line terminator (CRLF, CR or LF) becomes one LF.
  function Normalise(text: string): string {
    if text == "" then ""
    else if text[0] == '\r' then "\n" + Normalise(if |text| > 1 && text[1] == '\n' then text[2..] else text[1..])
    else [text[0]] + Normalise(text[1..])
  }

  // The lines of a text; the last piece is what follows the last terminator.
  function Split(text: string): (pieces: seq<string>)
    ensures pieces != []
  {
    if text == "" then [""]
    else
      var rest := Split(text[1..]);
      if text[0] == '\n' then [""] + rest else [[text[0]] + rest[0]] + rest[1..]
  }

  function Interpret(pieces: seq<string>, m: Machine, parse: Parser): Result
    requires pieces != []
  {
    if |pieces| == 1 then
      Stop(m.events, if |pieces[0]| + m.size > MAX_EVENT_BUFFER then SizeLimit else NoTerminalEvent)
    else
      match FeedLine(m, pieces[0], parse)
      case Over(r) => r
      case Going(m') => Interpret(pieces[1..], m', parse)
  }

  function Reference(text: string, parse: Parser): Result {
    Interpret(Split(Normalise(text)), START, parse)
  }

  // ── The incremental reader as a function ─────────────────────────────────

  datatype Drained = More(buffer: string, machine: Machine) | Finished(result: Result)

  predicate IsBreak(c: char) {
    c == '\r' || c == '\n'
  }

  // buffer.search(/[\r\n]/), with the length in place of -1.
  function FirstBreak(s: string): (end: nat)
    ensures end <= |s| && (end < |s| ==> IsBreak(s[end]))
    ensures forall i :: 0 <= i < end ==> !IsBreak(s[i])
  {
    if s == "" || IsBreak(s[0]) then 0 else 1 + FirstBreak(s[1..])
  }

  function AfterBreak(s: string, end: nat): (next: nat)
    requires end < |s|
    ensures end < next <= |s|
  {
    if s[end] == '\r' && end + 1 < |s| && s[end + 1] == '\n' then end + 2 else end + 1
  }

  // A trailing CR waits until it is known whether LF follows.
  predicate NoLineYet(buffer: string, done: bool) {
    var end := FirstBreak(buffer);
    end == |buffer| || (!done && buffer[end] == '\r' && end == |buffer| - 1)
  }

  function Drain(buffer: string, m: Machine, done: bool, parse: Parser): Drained {
    if NoLineYet(buffer, done) then More(buffer, m)
    else
      var end := FirstBreak(buffer);
      match FeedLine(m, buffer[..end], parse)
      case Over(r) => Finished(r)
      case Going(m') => Drain(buffer[AfterBreak(buffer, end)..], m', done, parse)
  }

  // What follows the line loop of one read.
  function AfterRead(d: Drained, done: bool): Drained {
    if d.Finished? then d
    else if |d.buffer| + d.machine.size > MAX_EVENT_BUFFER then Finished(Stop(d.machine.events, SizeLimit))
    else if done then Finished(Stop(d.machine.events, NoTerminalEvent))
    else d
  }

  function Finish(text: string, m: Machine, parse: Parser): (r: Result) {
    AfterRead(Drain(text, m, true, parse), true).result
  }

  function Run(chunks: seq<string>, buffer: string, m: Machine, ending: Ending, parse: Parser): Result {
    if chunks == [] then
      match ending
      case Completed => Finish(buffer, m, parse)
      case Broken => Stop(m.events, ReadFailed)
      case Aborted => Result(m.events, Cancelled)
    else
      match AfterRead(Drain(buffer + chunks[0], m, false, parse), false)
      case Finished(r) => r
      case More(b, m') => Run(chunks[1..], b, m', ending, parse)
  }

  function ReadAll(chunks: seq<string>, parse: Parser): Result {
    Run(chunks, "", START, Completed, parse)
  }

  function Concat(chunks: seq<string>): string {
    if chunks == [] then "" else chunks[0] + Concat(chunks[1..])
  }

  // ── The reader ───────────────────────────────────────────────────────────

  // An empty line ends an event, if there is one.
  method DispatchEvent(data: seq<string>, events: seq<Json>, parse: Parser) returns (p: Progress)
    requires data != []
    ensures forall size: nat :: p == Dispatch(Machine(data, size, events), parse)
  {
    var json := parse(Join(data));
    if json.Invalid? {
      return Over(Stop(events, BadJson));
    }
    if json.NotObject? {
      return Over(Stop(events, InvalidEvent));
    }
    if json.done.IsTrue? && !json.success.IsTrue? && !json.success.IsFalse? {
      return Over(Stop(events, MissingResult));
    }
    var delivered := events + [json];
    if json.Terminal() {
      return Over(Result(delivered, if json.success.IsFalse? then Failed else Success));
    }
    return Going(Machine([], 0, delivered));
  }

  // The line loop: `buffer`, `data`, `eventSize` and the delivered events.
  method DrainBuffer(buffer0: string, m0: Machine, done: bool, parse: Parser) returns (d: Drained)
    ensures d == Drain(buffer0, m0, done, parse)
  {
    var buffer, data, events := buffer0, m0.data, m0.events;
    var eventSize: nat := m0.size;
    while true
      invariant Drain(buffer, Machine(data, eventSize, events), done, parse) == Drain(buffer0, m0, done, parse)
      decreases |buffer|
    {
      ghost var m := Machine(data, eventSize, events);
      var end := FirstBreak(buffer);
      if end == |buffer| || (!done && buffer[end] == '\r' && end == |buffer| - 1) {
        return More(buffer, Machine(data, eventSize, events));
      }
      var line := buffer[..end];
      buffer := buffer[AfterBreak(buffer, end)..];
      eventSize := eventSize + |line|;
      if eventSize > MAX_EVENT_BUFFER {
        return Finished(Stop(events, SizeLimit));
      }
      if line == "" {
        eventSize := 0;
        if data != [] {
          var p := DispatchEvent(data, events, parse);
          if p.Over? {
            assert FeedLine(m, line, parse) == p;
            return Finished(p.result);
          }
          data, events := [], p.machine.events;
        }
      } else if |line| >= 5 && line[..5] == "data:" {
        data := data + [DataOf(line)];
      }
      assert FeedLine(m, line, parse) == Going(Machine(data, eventSize, events));
    }
  }

  // The read loop.  Whatever the stream does, the result is that of `Run`; on a
  // completed stream clear of the limit it is that of the whole-text parse.
  method ReadSse(chunks: seq<string>, ending: Ending, parse: Parser) returns (r: Result)
    ensures r == Run(chunks, "", START, ending, parse)
    ensures ending.Completed? && (forall p :: !HazardAt(Concat(chunks), p, parse)) ==>
      r == Reference(Concat(chunks), parse)
    ensures WellEnded(r)
  {
    var buffer, m := "", START;
    var i := 0;
    while i < |chunks|
      invariant 0 <= i <= |chunks|
      invariant Run(chunks[i..], buffer, m, ending, parse) == Run(chunks, "", START, ending, parse)
    {
      var d := DrainBuffer(buffer + chunks[i], m, false, parse);
      d := AfterRead(d, false);
      assert chunks[i..][1..] == chunks[i + 1..];
      if d.Finished? {
        r := d.result;
        RunWellEnded(chunks, "", START, ending, parse);
        ChunksDoNotMatter(chunks, parse);
        return;
      }
      buffer, m := d.buffer, d.machine;
      i := i + 1;
    }
    match ending {
      case Broken => r := Stop(m.events, ReadFailed);
      case Aborted => r := Result(m.events, Cancelled);
      case Completed =>
        var d := DrainBuffer(buffer, m, true, parse);
        r := AfterRead(d, true).result;
    }
    RunWellEnded(chunks, "", START, ending, parse);
    ChunksDoNotMatter(chunks, parse);
  }

  // ── No event follows a terminal one ──────────────────────────────────────

  ghost predicate NoneTerminal(events: seq<Json>) {
    forall e <- events :: !e.Terminal()
  }

  // Success and Failed report the last event, which alone may be terminal.
  ghost predicate WellEnded(r: Result) {
    var n := |r.events|;
    if r.outcome.Success? || r.outcome.Failed? then
      && n > 0 && r.events[n - 1].Terminal() && NoneTerminal(r.events[..n - 1])
      && (r.outcome.Failed? <==> r.events[n - 1].success.IsFalse?)
    else NoneTerminal(r.events)
  }

  lemma FeedLineWellEnded(m: Machine, line: string, parse: Parser)
    requires NoneTerminal(m.events)
    ensures match FeedLine(m, line, parse) case Over(r) => WellEnded(r) case Going(m') => NoneTerminal(m'.events)
  {
    var json := parse(Join(m.data));
    assert (m.events + [json])[..|m.events|] == m.events;
  }

  lemma {:induction false} DrainWellEnded(buffer: string, m: Machine, done: bool, parse: Parser)
    requires NoneTerminal(m.events)
    ensures match Drain(buffer, m, done, parse) case Finished(r) => WellEnded(r) case More(_,
      m') => NoneTerminal(m'.events)
    decreases |buffer|
  {
    if !NoLineYet(buffer, done) {
      var end := FirstBreak(buffer);
      FeedLineWellEnded(m, buffer[..end], parse);
      var p := FeedLine(m, buffer[..end], parse);
      if p.Going? {
        DrainWellEnded(buffer[AfterBreak(buffer, end)..], p.machine, done, parse);
      }
    }
  }

  lemma {:induction false} RunWellEnded(chunks: seq<string>, buffer: string, m: Machine, ending: Ending, parse: Parser)
    requires NoneTerminal(m.events)
    ensures WellEnded(Run(chunks, buffer, m, ending, parse))
    decreases |chunks|
  {
    if chunks == [] {
      DrainWellEnded(buffer, m, true, parse);
    } else {
      DrainWellEnded(buffer + chunks[0], m, false, parse);
      var d := AfterRead(Drain(buffer + chunks[0], m, false, parse), false);
      if d.More? {
        RunWellEnded(chunks[1..], d.buffer, d.machine, ending, parse);
      }
    }
  }

  // ── One buffer against the whole-text parse ──────────────────────────────

  lemma {:induction false} PiecesWithoutBreak(s: string)
    requires FirstBreak(s) == |s|
    ensures Split(Normalise(s)) == [s]
  {
    if s != "" {
      assert !IsBreak(s[0]);
      PiecesWithoutBreak(s[1..]);
      var n := Normalise(s[1..]);
      assert ([s[0]] + n)[1..] == n;
      assert [s[0]] + s[1..] == s;
    }
  }

  lemma SplitBreak(n: string)
    ensures Split("\n" + n) == [""] + Split(n)
  {
    assert ("\n" + n)[1..] == n;
  }

  lemma SplitChar(c: char, n: string)
    requires c != '\n'
    ensures Split([c] + n) == [[c] + Split(n)[0]] + Split(n)[1..]
  {
    assert ([c] + n)[1..] == n;
  }

  lemma {:induction false} PiecesFirst(s: string)
    requires FirstBreak(s) < |s|
    ensures Split(Normalise(s)) == [s[..FirstBreak(s)]] + Split(Normalise(s[AfterBreak(s, FirstBreak(s))..]))
  {
    var end := FirstBreak(s);
    var rest := s[AfterBreak(s, end)..];
    if end == 0 {
      assert Normalise(s) == "\n" + Normalise(rest);
      SplitBreak(Normalise(rest));
      assert s[..0] == "";
    } else {
      var t := s[1..];
      PiecesFirst(t);
      assert t[AfterBreak(t, end - 1)..] == rest;
      assert Normalise(s) == [s[0]] + Normalise(t);
      SplitChar(s[0], Normalise(t));
      assert [s[0]] + t[..end - 1] == s[..end];
    }
  }

  lemma {:induction false} FinishIsReference(s: string, m: Machine, parse: Parser)
    ensures Finish(s, m, parse) == Interpret(Split(Normalise(s)), m, parse)
    decreases |s|
  {
    var end := FirstBreak(s);
    if end == |s| {
      PiecesWithoutBreak(s);
    } else {
      PiecesFirst(s);
      var rest := s[AfterBreak(s, end)..];
      var p := FeedLine(m, s[..end], parse);
      if p.Going? {
        FinishIsReference(rest, p.machine, parse);
        assert ([s[..end]] + Split(Normalise(rest)))[1..] == Split(Normalise(rest));
      }
    }
  }

  // ── Cutting a stream ─────────────────────────────────────────────────────

  lemma {:induction false} FirstBreakAppend(b: string, c: string)
    ensures FirstBreak(b) < |b| ==> FirstBreak(b + c) == FirstBreak(b)
    ensures FirstBreak(b) == |b| ==> FirstBreak(b + c) == |b| + FirstBreak(c)
  {
    if b == "" {
      assert b + c == c;
    } else {
      assert (b + c)[1..] == b[1..] + c;
      FirstBreakAppend(b[1..], c);
    }
  }

  // Draining in two goes is draining at once.
  lemma {:induction false} DrainAppend(b: string, c: string, m: Machine, done: bool, parse: Parser)
    ensures match Drain(b, m, false, parse)
      case Finished(r) => Drain(b + c, m, done, parse) == Finished(r)
      case More(b', m') => Drain(b + c, m, done, parse) == Drain(b' + c, m', done, parse)
    decreases |b|
  {
    if !NoLineYet(b, false) {
      FirstBreakAppend(b, c);
      var end := FirstBreak(b);
      var next := AfterBreak(b, end);
      assert (b + c)[..end] == b[..end];
      assert AfterBreak(b + c, end) == next;
      assert (b + c)[next..] == b[next..] + c;
      var p := FeedLine(m, b[..end], parse);
      if p.Going? {
        DrainAppend(b[next..], c, p.machine, done, parse);
      }
    }
  }

  lemma {:induction false} DrainLeaves(b: string, m: Machine, parse: Parser)
    ensures match Drain(b, m, false, parse) case Finished(_) => true case More(b', _) => NoLineYet(b', false)
    decreases |b|
  {
    if !NoLineYet(b, false) {
      var end := FirstBreak(b);
      var p := FeedLine(m, b[..end], parse);
      if p.Going? {
        DrainLeaves(b[AfterBreak(b, end)..], p.machine, parse);
      }
    }
  }

  // A cut right behind a CR whose line brings the event to exactly the limit.
  ghost predicate HazardAt(text: string, p: nat, parse: Parser) {
    p <= |text| &&
    match Drain(text[..p], START, false, parse)
    case Finished(_) => false
    case More(b, m) => FirstBreak(b) < |b| && |b| + m.size == MAX_EVENT_BUFFER + 1
  }

  function LimitAt(text: string, p: nat, parse: Parser): Result
    requires p <= |text|
  {
    var d := Drain(text[..p], START, false, parse);
    if d.Finished? then d.result else Stop(d.machine.events, SizeLimit)
  }

  // Beyond the limit the rest of the text makes no difference.
  lemma BeyondLimit(b: string, m: Machine, c: string, parse: Parser)
    requires NoLineYet(b, false) && |b| + m.size > MAX_EVENT_BUFFER
    requires FirstBreak(b) == |b| || |b| + m.size != MAX_EVENT_BUFFER + 1
    ensures Finish(b + c, m, parse) == Stop(m.events, SizeLimit)
  {
    FirstBreakAppend(b, c);
  }

  // The run after some chunks is the whole-text parse of everything, or a cut
  // hit the limit at a held CR.
  lemma {:induction false} RunFrom(chunks: seq<string>, seen: string, b: string, m: Machine, parse: Parser)
    requires Drain(seen, START, false, parse) == More(b, m)
    ensures
      var text := seen + Concat(chunks);
      var r := Run(chunks, b, m, Completed, parse);
      r == Finish(text, START, parse) || exists p :: HazardAt(text, p, parse) && r == LimitAt(text, p, parse)
    decreases |chunks|
  {
    var text := seen + Concat(chunks);
    if chunks == [] {
      DrainAppend(seen, "", START, true, parse);
      assert seen + "" == seen && b + "" == b && text == seen;
    } else {
      var seen' := seen + chunks[0];
      var later := Concat(chunks[1..]);
      assert text == seen' + later;
      DrainAppend(seen, chunks[0], START, false, parse);
      var d := Drain(b + chunks[0], m, false, parse);
      assert d == Drain(seen', START, false, parse);
      DrainAppend(seen', later, START, true, parse);
      DrainLeaves(seen', START, parse);
      assert text[..|seen'|] == seen';
      if d.More? {
        if |d.buffer| + d.machine.size > MAX_EVENT_BUFFER {
          if HazardAt(text, |seen'|, parse) {
          } else {
            BeyondLimit(d.buffer, d.machine, later, parse);
          }
        } else {
          RunFrom(chunks[1..], seen', d.buffer, d.machine, parse);
        }
      }
    }
  }

  lemma ChunksDoNotMatter(chunks: seq<string>, parse: Parser)
    ensures
      var text := Concat(chunks);
      var r := ReadAll(chunks, parse);
      r == Reference(text, parse) || exists p :: HazardAt(text, p, parse) && r == LimitAt(text, p, parse)
  {
    RunFrom(chunks, "", "", START, parse);
    assert "" + Concat(chunks) == Concat(chunks);
    FinishIsReference(Concat(chunks), START, parse);
  }

  lemma CutAtHazard(text: string, p: nat, parse: Parser)
    requires HazardAt(text, p, parse)
    ensures Concat([text[..p], text[p..]]) == text
    ensures ReadAll([text[..p], text[p..]], parse) == LimitAt(text, p, parse)
  {
    assert "" + text[..p] == text[..p];
    var chunks := [text[..p], text[p..]];
    assert chunks[1..] == [text[p..]] && chunks[1..][1..] == [];
    assert text[p..] + "" == text[p..];
    assert Concat(chunks[1..]) == text[p..];
  }

  // Exactly the texts whose result does not depend on how they are cut.
  lemma CutsDoNotMatterIff(text: string, parse: Parser)
    ensures (forall chunks :: Concat(chunks) == text ==> ReadAll(chunks, parse) == Reference(text, parse))
      <==> (forall p :: HazardAt(text, p, parse) ==> LimitAt(text, p, parse) == Reference(text, parse))
  {
    if forall chunks :: Concat(chunks) == text ==> ReadAll(chunks, parse) == Reference(text, parse) {
      forall p | HazardAt(text, p, parse)
        ensures LimitAt(text, p, parse) == Reference(text, parse)
      {
        CutAtHazard(text, p, parse);
      }
    }
    if forall p :: HazardAt(text, p, parse) ==> LimitAt(text, p, parse) == Reference(text, parse) {
      forall chunks | Concat(chunks) == text
        ensures ReadAll(chunks, parse) == Reference(text, parse)
      {
        ChunksDoNotMatter(chunks, parse);
      }
    }
  }

  // One line of exactly the limit, ended by CR at the end of the stream, is a
  // text whose result does depend on the cut.
  lemma LimitDependsOnCut(parse: Parser)
    ensures var text := seq(MAX_EVENT_BUFFER, _ => 'a') + "\r";
      HazardAt(text, |text|, parse) && LimitAt(text, |text|, parse) != Reference(text, parse)
  {
    var text := seq(MAX_EVENT_BUFFER, _ => 'a') + "\r";
    var end := FirstBreak(text);
    assert end <= MAX_EVENT_BUFFER by {
      assert IsBreak(text[MAX_EVENT_BUFFER]);
    }
    assert forall i :: 0 <= i < MAX_EVENT_BUFFER ==> !IsBreak(text[i]);
    assert IsBreak(text[end]) && end == MAX_EVENT_BUFFER;
    assert text[..|text|] == text;
    assert NoLineYet(text, false) && AfterBreak(text, end) == |text|;
    assert Finish(text, START, parse).outcome == Interrupted(NoTerminalEvent) by {
      assert text[|text|..] == "";
      var line, full := text[..end], Machine([], MAX_EVENT_BUFFER, []);
      assert line[..5][0] == 'a';
      assert FeedLine(START, line, parse) == Going(full);
      assert Drain("", full, true, parse) == More("", full);
    }
    FinishIsReference(text, START, parse);
  }
}
