/** Reading a chat answer from a server-sent event stream, chunk by chunk. */
module EventStream {
  import opened Common

  const MAX_RESPONSE_LENGTH := 2_000_000

  datatype UsagePatch = UsagePatch(input: Option<nat>, output: Option<nat>, total: Option<nat>)

  datatype Usage = Usage(input: nat, output: nat, total: nat)

  function MergeUsage(current: Option<Usage>, patch: Option<UsagePatch>): Option<Usage> {
    if patch.None? then current else
      var input := if patch.value.input.Some? then patch.value.input.value
                   else if current.Some? then current.value.input else 0;
      var output := if patch.value.output.Some? then patch.value.output.value
                    else if current.Some? then current.value.output else 0;
      Some(Usage(input, output, if patch.value.total.Some? then patch.value.total.value else input + output))
  }

  /** One parsed stream record; an absent text is the empty one. */
  datatype Delta = Delta(done: bool, text: string, thinking: string, inputJson: string, refusal: string,
                         stopReason: Option<string>, usage: Option<UsagePatch>)

  /** What a record parses to: a delta, the provider's own error, or nothing of the protocol. */
  datatype Record = Parsed(delta: Delta) | ProviderError(retryable: bool) | Malformed

  datatype ChatEvent =
    | TextDelta(text: string, usage: Option<Usage>)
    | Thinking(text: string)
    | InputJson(text: string)
    | Refusal(text: string, reason: string)
    | Start(usage: Option<Usage>)
    | Retrying(attempt: nat, maxAttempts: nat)
    | Done(stopReason: Option<string>, usage: Option<Usage>)
    | Error(continuable: bool)
    | Aborted

  predicate IsOutput(e: ChatEvent) {
    e.TextDelta? || e.Thinking? || e.InputJson? || e.Refusal?
  }

  predicate IsTerminal(e: ChatEvent) {
    e.Done? || e.Error? || e.Aborted?
  }

  ghost predicate AnyOutput(events: seq<ChatEvent>) {
    exists i :: 0 <= i < |events| && IsOutput(events[i])
  }

  ghost predicate NoTerminal(events: seq<ChatEvent>) {
    forall i :: 0 <= i < |events| ==> !IsTerminal(events[i])
  }

  lemma OutputOfBoth(a: seq<ChatEvent>, b: seq<ChatEvent>)
    ensures AnyOutput(a + b) <==> AnyOutput(a) || AnyOutput(b)
    ensures NoTerminal(a + b) <==> NoTerminal(a) && NoTerminal(b)
  {
    assert forall i :: 0 <= i < |b| ==> (a + b)[|a| + i] == b[i];
    assert forall i :: 0 <= i < |a| ==> (a + b)[i] == a[i];
  }

  datatype StreamError = Incomplete(emittedOutput: bool) | Fatal

  datatype StreamState = StreamState(doneEvent: bool, emittedOutput: bool, usage: Option<Usage>,
                                     responseLength: nat, stopReason: Option<string>, events: seq<ChatEvent>)

  const INITIAL := StreamState(false, false, None, 0, None, [])

  /** Where reading stands: still going (or at the end marker), or stopped by an error. */
  datatype Progress = At(state: StreamState) | Thrown(state: StreamState, error: StreamError)

  // ----- Lines

  /** text.split(/\r?\n/), scanning from the left with `line` read since the last separator. */
  function SplitFrom(text: string, line: string): (lines: seq<string>)
    ensures |lines| >= 1
    decreases |text|
  {
    if text == "" then [line]
    else if text[0] == '\n' then [line] + SplitFrom(text[1..], "")
    else if |text| >= 2 && text[0] == '\r' && text[1] == '\n' then [line] + SplitFrom(text[2..], "")
    else SplitFrom(text[1..], line + [text[0]])
  }

  function Split(text: string): (lines: seq<string>)
    ensures |lines| >= 1
  {
    SplitFrom(text, "")
  }

  function Last<T>(s: seq<T>): T
    requires s != []
  {
    s[|s| - 1]
  }

  function Front<T>(s: seq<T>): seq<T>
    requires s != []
  {
    s[..|s| - 1]
  }

  function Concat(pieces: seq<string>): string {
    if pieces == [] then "" else Concat(Front(pieces)) + Last(pieces)
  }

  /** What has been read of a line can be put back in front, unless that would complete a CRLF. */
  lemma {:induction false} PutBack(line: string, read: nat, text: string)
    requires read <= |line| && '\n' !in line
    requires line == "" || text == "" || !(Last(line) == '\r' && text[0] == '\n')
    ensures SplitFrom(line[read..] + text, line[..read]) == SplitFrom(text, line)
    decreases |line| - read
  {
    if read == |line| {
      assert line[read..] + text == text && line[..read] == line;
    } else {
      var rest := line[read..] + text;
      assert rest[0] == line[read] && rest[1..] == line[read + 1..] + text;
      assert line[..read] + [line[read]] == line[..read + 1];
      if |rest| >= 2 {
        assert rest[1] == if read + 1 < |line| then line[read + 1] else text[0];
      }
      PutBack(line, read + 1, text);
    }
  }

  lemma Prepend(line: string, lines: seq<string>, tail: seq<string>)
    requires lines != []
    ensures Last([line] + lines) == Last(lines)
    ensures [line] + (Front(lines) + tail) == Front([line] + lines) + tail
  {
    assert Front([line] + lines) == [line] + Front(lines);
  }

  ghost predicate Continues(a: string, b: string, line: string) {
    && '\n' !in Last(SplitFrom(a, line))
    && SplitFrom(a + b, line) == Front(SplitFrom(a, line)) + SplitFrom(Last(SplitFrom(a, line)) + b, "")
  }

  lemma LoneReturn(b: string, line: string)
    requires '\n' !in line
    ensures Continues("\r", b, line)
  {
    assert "\r"[1..] == "";
    assert SplitFrom("\r", line) == SplitFrom("", line + "\r") == [line + "\r"];
    PutBack(line, 0, "\r" + b);
    assert line + ("\r" + b) == line + "\r" + b;
    assert line[0..] == line && line[..0] == "";
  }

  /** No line feed is left in a line, and what follows a text goes behind its last line. */
  lemma {:induction false} SplitMore(a: string, b: string, line: string)
    requires '\n' !in line
    requires a == "" ==> line == "" || Last(line) != '\r'
    requires line != "" && Last(line) == '\r' && a != "" ==> a[0] != '\n'
    ensures Continues(a, b, line)
    decreases |a|
  {
    if a == "" {
      assert a + b == b;
      PutBack(line, 0, b);
      assert line[0..] == line && line[..0] == "";
    } else if a[0] == '\n' {
      assert (a + b)[1..] == a[1..] + b;
      SplitMore(a[1..], b, "");
      Prepend(line, SplitFrom(a[1..], ""), SplitFrom(Last(SplitFrom(a[1..], "")) + b, ""));
    } else if |a| >= 2 && a[0] == '\r' && a[1] == '\n' {
      assert (a + b)[2..] == a[2..] + b;
      SplitMore(a[2..], b, "");
      Prepend(line, SplitFrom(a[2..], ""), SplitFrom(Last(SplitFrom(a[2..], "")) + b, ""));
    } else if a == "\r" {
      LoneReturn(b, line);
    } else {
      assert (a + b)[1..] == a[1..] + b;
      assert |a| >= 2 ==> (a + b)[1] == a[1];
      SplitMore(a[1..], b, line + [a[0]]);
    }
  }

  /**
   * Splitting can be interrupted anywhere, inside a CRLF too: keep the last piece, put what comes next
   * behind it and split that.
   */
  lemma SplitContinues(a: string, b: string)
    ensures Split(a + b) == Front(Split(a)) + Split(Last(Split(a)) + b)
  {
    SplitMore(a, b, "");
  }

  /** Lines put together, each closed by a line feed or, where told, by a return and a line feed. */
  function Joined(lines: seq<string>, withReturn: seq<bool>): string
    requires lines != [] && |withReturn| == |lines| - 1
  {
    if |lines| == 1 then lines[0]
    else lines[0] + (if withReturn[0] then "\r\n" else "\n") + Joined(lines[1..], withReturn[1..])
  }

  /** A line is split off at its separator and no earlier. */
  lemma {:induction false} SplitOff(read: string, line: string, withReturn: bool, rest: string)
    requires '\n' !in line && (line != "" ==> Last(line) != '\r')
    ensures SplitFrom(line + (if withReturn then "\r\n" else "\n") + rest, read)
         == [read + line] + SplitFrom(rest, "")
    decreases |line|
  {
    var separator := if withReturn then "\r\n" else "\n";
    var text := line + separator + rest;
    if line == "" {
      assert text == separator + rest && read + line == read;
      assert text[|separator|..] == rest;
    } else {
      assert text[0] == line[0] && text[1..] == line[1..] + separator + rest;
      assert |line| > 1 ==> text[1] == line[1];
      SplitOff(read + [line[0]], line[1..], withReturn, rest);
      assert read + [line[0]] + line[1..] == read + line;
    }
  }

  lemma {:induction false} NoSeparator(read: string, line: string)
    requires '\n' !in line
    ensures SplitFrom(line, read) == [read + line]
    decreases |line|
  {
    if line == "" {
      assert read + line == read;
    } else {
      assert |line| > 1 ==> line[1] != '\n';
      NoSeparator(read + [line[0]], line[1..]);
      assert read + [line[0]] + line[1..] == read + line;
    }
  }

  /** Splitting undoes joining, with either separator. */
  lemma {:induction false} SplitUndoesJoining(lines: seq<string>, withReturn: seq<bool>)
    requires lines != [] && |withReturn| == |lines| - 1
    requires forall i :: 0 <= i < |lines| ==> '\n' !in lines[i]
    requires forall i :: 0 <= i < |lines| - 1 ==> lines[i] == "" || Last(lines[i]) != '\r'
    ensures Split(Joined(lines, withReturn)) == lines
    decreases |lines|
  {
    if |lines| == 1 {
      NoSeparator("", lines[0]);
      assert "" + lines[0] == lines[0];
    } else {
      SplitUndoesJoining(lines[1..], withReturn[1..]);
      SplitOff("", lines[0], withReturn[0], Joined(lines[1..], withReturn[1..]));
      assert "" + lines[0] == lines[0] && [lines[0]] + lines[1..] == lines;
    }
  }

  // ----- Records

  predicate IsSpace(c: char) {
    c in {'\t', '\n', '\U{000B}', '\U{000C}', '\r', ' ', '\U{00A0}', '\U{1680}', '\U{2028}', '\U{2029}',
          '\U{202F}', '\U{205F}', '\U{3000}', '\U{FEFF}'}
    || '\U{2000}' <= c <= '\U{200A}'
  }

  function Trim(s: string): string {
    if s == "" then ""
    else if IsSpace(s[0]) then Trim(s[1..])
    else if IsSpace(Last(s)) then Trim(Front(s))
    else s
  }

  predicate AllSpace(s: string) {
    forall c | c in s :: IsSpace(c)
  }

  /** Trimming takes away nothing but space, and all of it at both ends. */
  lemma {:induction false} TrimmedOf(s: string) returns (before: string, after: string)
    ensures s == before + Trim(s) + after && AllSpace(before) && AllSpace(after)
    ensures Trim(s) != "" ==> !IsSpace(Trim(s)[0]) && !IsSpace(Last(Trim(s)))
    decreases |s|
  {
    hide IsSpace;
    before, after := "", "";
    if s != "" {
      if IsSpace(s[0]) {
        before, after := TrimmedOf(s[1..]);
        before := [s[0]] + before;
      } else if IsSpace(Last(s)) {
        before, after := TrimmedOf(Front(s));
        after := after + [Last(s)];
        assert s == Front(s) + [Last(s)];
      }
    }
  }

  /** The data of a line, empty when the line carries none. */
  function DataOf(line: string): string {
    if "data:" <= line then Trim(line[5..]) else ""
  }

  function When(condition: bool, e: ChatEvent): seq<ChatEvent> {
    if condition then [e] else []
  }

  predicate Visible(delta: Delta) {
    delta.text != "" || delta.thinking != "" || delta.inputJson != "" || delta.refusal != ""
  }

  /** A delta is emitted as text, thinking, tool input and refusal, in this order, or as bare usage. */
  function DeltaEvents(usage: Option<Usage>, delta: Delta): seq<ChatEvent> {
    When(delta.text != "", TextDelta(delta.text, usage))
    + When(delta.thinking != "", Thinking(delta.thinking))
    + When(delta.inputJson != "", InputJson(delta.inputJson))
    + When(delta.refusal != "",
           Refusal(delta.refusal, if delta.stopReason.Some? then delta.stopReason.value else "refusal"))
    + When(!Visible(delta) && delta.usage.Some?, Start(usage))
  }

  function TakeDelta(state: StreamState, delta: Delta): Progress {
    var usage := MergeUsage(state.usage, delta.usage);
    var length := state.responseLength + |delta.text| + |delta.thinking| + |delta.inputJson| + |delta.refusal|;
    var counted := state.(
      usage := usage, responseLength := length,
      stopReason := if delta.stopReason.Some? then delta.stopReason else state.stopReason);
    if length > MAX_RESPONSE_LENGTH then
      Thrown(counted, Fatal)
    else
      At(counted.(
        events := state.events + DeltaEvents(usage, delta),
        emittedOutput := state.emittedOutput || Visible(delta),
        doneEvent := state.doneEvent || delta.done))
  }

  function TakeLine(state: StreamState, line: string, parse: string -> Record): Progress {
    var data := DataOf(line);
    if data == "" then At(state)
    else if data == "[DONE]" then At(state.(doneEvent := true))
    else
      match parse(data)
      case Parsed(delta) => TakeDelta(state, delta)
      case ProviderError(retryable) => Thrown(state, if retryable then Incomplete(state.emittedOutput) else Fatal)
      case Malformed => Thrown(state, Fatal)
  }

  predicate Stopped(p: Progress) {
    p.Thrown? || p.state.doneEvent
  }

  /** The lines in order, up to the end marker or the first error. */
  function TakeLines(lines: seq<string>, parse: string -> Record): Progress
    decreases |lines|
  {
    if lines == [] then At(INITIAL) else
      var before := TakeLines(Front(lines), parse);
      if Stopped(before) then before else TakeLine(before.state, Last(lines), parse)
  }

  lemma TakeOneMore(lines: seq<string>, line: string, parse: string -> Record)
    requires !Stopped(TakeLines(lines, parse))
    ensures TakeLines(lines + [line], parse) == TakeLine(TakeLines(lines, parse).state, line, parse)
  {
    assert Front(lines + [line]) == lines;
  }

  lemma {:induction false} StopIsFinal(lines: seq<string>, more: seq<string>, parse: string -> Record)
    requires Stopped(TakeLines(lines, parse))
    ensures TakeLines(lines + more, parse) == TakeLines(lines, parse)
    decreases |more|
  {
    if more == [] {
      assert lines + more == lines;
    } else {
      StopIsFinal(lines, Front(more), parse);
      assert Front(lines + more) == lines + Front(more);
    }
  }

  function LinesOf(text: string, closed: bool): seq<string> {
    if closed then Split(text) else Front(Split(text))
  }

  /**
   * The answer as one text: all its lines, or, when the connection broke, all lines that were completed.
   * Reading that does not reach the end marker is incomplete.
   */
  function Reference(text: string, closed: bool, parse: string -> Record): Progress {
    var p := TakeLines(LinesOf(text, closed), parse);
    if Stopped(p) then p else Thrown(p.state, Incomplete(p.state.emittedOutput))
  }

  lemma DeltaEventsOutput(usage: Option<Usage>, delta: Delta)
    ensures AnyOutput(DeltaEvents(usage, delta)) <==> Visible(delta)
    ensures NoTerminal(DeltaEvents(usage, delta))
  {
    var text := When(delta.text != "", TextDelta(delta.text, usage));
    var thinking := When(delta.thinking != "", Thinking(delta.thinking));
    var input := When(delta.inputJson != "", InputJson(delta.inputJson));
    var refusal := When(delta.refusal != "",
                        Refusal(delta.refusal, if delta.stopReason.Some? then delta.stopReason.value else "refusal"));
    var start := When(!Visible(delta) && delta.usage.Some?, Start(usage));
    assert DeltaEvents(usage, delta) == text + thinking + input + refusal + start;
    hide AnyOutput;
    hide NoTerminal;
    hide When;
    hide DeltaEvents;
    OutputOfBoth(text, thinking);
    OutputOfBoth(text + thinking, input);
    OutputOfBoth(text + thinking + input, refusal);
    OutputOfBoth(text + thinking + input + refusal, start);
    WhenOutput(delta.text != "", TextDelta(delta.text, usage));
    WhenOutput(delta.thinking != "", Thinking(delta.thinking));
    WhenOutput(delta.inputJson != "", InputJson(delta.inputJson));
    WhenOutput(delta.refusal != "",
               Refusal(delta.refusal, if delta.stopReason.Some? then delta.stopReason.value else "refusal"));
    WhenOutput(!Visible(delta) && delta.usage.Some?, Start(usage));
  }

  lemma WhenOutput(condition: bool, e: ChatEvent)
    ensures AnyOutput(When(condition, e)) <==> condition && IsOutput(e)
    ensures NoTerminal(When(condition, e)) <==> !condition || !IsTerminal(e)
  {
    if condition {
      assert When(condition, e)[0] == e;
    }
  }

  /** The flag that decides whether an answer may be asked for again is exact. */
  lemma {:induction false} EmittedOutputIsExact(lines: seq<string>, parse: string -> Record)
    ensures var p := TakeLines(lines, parse);
            && (p.state.emittedOutput <==> AnyOutput(p.state.events))
            && NoTerminal(p.state.events)
            && (p.Thrown? && p.error.Incomplete? ==> p.error.emittedOutput == p.state.emittedOutput)
    decreases |lines|
  {
    if lines != [] {
      EmittedOutputIsExact(Front(lines), parse);
      var before := TakeLines(Front(lines), parse);
      var data := DataOf(Last(lines));
      if !Stopped(before) && data != "" && data != "[DONE]" && parse(data).Parsed? {
        var delta := parse(data).delta;
        var usage := MergeUsage(before.state.usage, delta.usage);
        DeltaEventsOutput(usage, delta);
        OutputOfBoth(before.state.events, DeltaEvents(usage, delta));
      }
    }
  }

  // ----- What the events of a stream carry

  datatype Kind = OfText | OfThinking | OfInput | OfRefusal

  function FieldOf(delta: Delta, kind: Kind): string {
    match kind
    case OfText => delta.text
    case OfThinking => delta.thinking
    case OfInput => delta.inputJson
    case OfRefusal => delta.refusal
  }

  /** What the caller gets of this kind out of an event. */
  function Payload(e: ChatEvent, kind: Kind): string {
    match e
    case TextDelta(text, _) => if kind == OfText then text else ""
    case Thinking(text) => if kind == OfThinking then text else ""
    case InputJson(text) => if kind == OfInput then text else ""
    case Refusal(text, _) => if kind == OfRefusal then text else ""
    case _ => ""
  }

  function Carried(events: seq<ChatEvent>, kind: Kind): string {
    if events == [] then "" else Carried(Front(events), kind) + Payload(Last(events), kind)
  }

  function Fields(deltas: seq<Delta>, kind: Kind): string {
    if deltas == [] then "" else Fields(Front(deltas), kind) + FieldOf(Last(deltas), kind)
  }

  lemma {:induction false} CarriedByBoth(a: seq<ChatEvent>, b: seq<ChatEvent>, kind: Kind)
    ensures Carried(a + b, kind) == Carried(a, kind) + Carried(b, kind)
    decreases |b|
  {
    if b == [] {
      assert a + b == a;
    } else {
      assert Front(a + b) == a + Front(b) && Last(a + b) == Last(b);
      CarriedByBoth(a, Front(b), kind);
      hide Payload;
      Regroup(Carried(a, kind), Carried(Front(b), kind), Payload(Last(b), kind));
    }
  }

  lemma Regroup(a: string, b: string, c: string)
    ensures a + b + c == a + (b + c)
  {
  }

  /** The place of an event among those of one record. */
  function Place(e: ChatEvent): nat {
    match e
    case TextDelta(_, _) => 1
    case Thinking(_) => 2
    case InputJson(_) => 3
    case Refusal(_, _) => 4
    case _ => 5
  }

  ghost predicate InPlace(events: seq<ChatEvent>, last: nat) {
    && (forall i :: 0 <= i < |events| ==> Place(events[i]) <= last)
    && (forall i, j :: 0 <= i < j < |events| ==> Place(events[i]) < Place(events[j]))
  }

  /** The event is one that the record calls for. */
  predicate CalledFor(e: ChatEvent, usage: Option<Usage>, delta: Delta) {
    match e
    case TextDelta(text, told) => text == delta.text != "" && told == usage
    case Thinking(text) => text == delta.thinking != ""
    case InputJson(text) => text == delta.inputJson != ""
    case Refusal(text, reason) =>
      text == delta.refusal != "" && reason == if delta.stopReason.Some? then delta.stopReason.value else "refusal"
    case Start(told) => told == usage && !Visible(delta) && delta.usage.Some?
    case _ => false
  }

  ghost predicate AllCalledFor(events: seq<ChatEvent>, usage: Option<Usage>, delta: Delta) {
    forall i :: 0 <= i < |events| ==> CalledFor(events[i], usage, delta)
  }

  /** What the events of one record must be like: this leaves no choice. */
  ghost predicate Shows(events: seq<ChatEvent>, usage: Option<Usage>, delta: Delta) {
    && (forall kind :: Carried(events, kind) == FieldOf(delta, kind))
    && InPlace(events, 5) && AllCalledFor(events, usage, delta)
    && (!Visible(delta) && delta.usage.Some? ==> Start(usage) in events)
  }

  lemma OneCarried(condition: bool, e: ChatEvent, kind: Kind)
    ensures Carried(When(condition, e), kind) == if condition then Payload(e, kind) else ""
  {
    if condition {
      assert Front([e]) == [];
    }
  }

  /** One more event of a record, if it is called for. */
  lemma OneMoreShown(events: seq<ChatEvent>, condition: bool, e: ChatEvent, usage: Option<Usage>, delta: Delta)
    requires InPlace(events, Place(e) - 1) && AllCalledFor(events, usage, delta)
    requires condition ==> CalledFor(e, usage, delta)
    ensures InPlace(events + When(condition, e), Place(e)) && AllCalledFor(events + When(condition, e), usage, delta)
    ensures condition ==> e in events + When(condition, e)
  {
    if condition {
      assert (events + [e])[|events|] == e;
    }
  }

  function ReasonOf(delta: Delta): string {
    if delta.stopReason.Some? then delta.stopReason.value else "refusal"
  }

  lemma RecordInPlace(usage: Option<Usage>, delta: Delta)
    ensures InPlace(DeltaEvents(usage, delta), 5) && AllCalledFor(DeltaEvents(usage, delta), usage, delta)
    ensures !Visible(delta) && delta.usage.Some? ==> Start(usage) in DeltaEvents(usage, delta)
  {
    var text, thinking := TextDelta(delta.text, usage), Thinking(delta.thinking);
    var input, refusal := InputJson(delta.inputJson), Refusal(delta.refusal, ReasonOf(delta));
    var one := When(delta.text != "", text);
    var two := one + When(delta.thinking != "", thinking);
    var three := two + When(delta.inputJson != "", input);
    var four := three + When(delta.refusal != "", refusal);
    assert DeltaEvents(usage, delta) == four + When(!Visible(delta) && delta.usage.Some?, Start(usage));
    assert [] + one == one;
    assert InPlace([], 0) && AllCalledFor([], usage, delta);
    hide AllCalledFor;
    hide InPlace;
    hide DeltaEvents;
    hide When;
    hide Visible;
    OneMoreShown([], delta.text != "", text, usage, delta);
    OneMoreShown(one, delta.thinking != "", thinking, usage, delta);
    OneMoreShown(two, delta.inputJson != "", input, usage, delta);
    OneMoreShown(three, delta.refusal != "", refusal, usage, delta);
    OneMoreShown(four, !Visible(delta) && delta.usage.Some?, Start(usage), usage, delta);
  }

  lemma MoreCarried(events: seq<ChatEvent>, condition: bool, e: ChatEvent, kind: Kind)
    ensures Carried(events + When(condition, e), kind)
         == Carried(events, kind) + if condition then Payload(e, kind) else ""
  {
    CarriedByBoth(events, When(condition, e), kind);
    OneCarried(condition, e, kind);
  }

  lemma FieldsAreFour(usage: Option<Usage>, delta: Delta, kind: Kind)
    ensures var text := if delta.text != "" then Payload(TextDelta(delta.text, usage), kind) else "";
            var thinking := if delta.thinking != "" then Payload(Thinking(delta.thinking), kind) else "";
            var input := if delta.inputJson != "" then Payload(InputJson(delta.inputJson), kind) else "";
            var refusal := if delta.refusal != "" then Payload(Refusal(delta.refusal, ReasonOf(delta)), kind) else "";
            text + thinking + input + refusal + "" == FieldOf(delta, kind)
    ensures Payload(Start(usage), kind) == ""
  {
    var text := if delta.text != "" then Payload(TextDelta(delta.text, usage), kind) else "";
    var thinking := if delta.thinking != "" then Payload(Thinking(delta.thinking), kind) else "";
    var input := if delta.inputJson != "" then Payload(InputJson(delta.inputJson), kind) else "";
    var refusal := if delta.refusal != "" then Payload(Refusal(delta.refusal, ReasonOf(delta)), kind) else "";
    OnlyOne(text, thinking, input, refusal);
  }

  lemma OnlyOne(a: string, b: string, c: string, d: string)
    ensures b == c == d == "" ==> a + b + c + d + "" == a
    ensures a == c == d == "" ==> a + b + c + d + "" == b
    ensures a == b == d == "" ==> a + b + c + d + "" == c
    ensures a == b == c == "" ==> a + b + c + d + "" == d
  {
  }

  lemma RecordCarries(usage: Option<Usage>, delta: Delta, kind: Kind)
    ensures Carried(DeltaEvents(usage, delta), kind) == FieldOf(delta, kind)
  {
    var text, thinking := TextDelta(delta.text, usage), Thinking(delta.thinking);
    var input, refusal := InputJson(delta.inputJson), Refusal(delta.refusal, ReasonOf(delta));
    var one := When(delta.text != "", text);
    var two := one + When(delta.thinking != "", thinking);
    var three := two + When(delta.inputJson != "", input);
    var four := three + When(delta.refusal != "", refusal);
    assert DeltaEvents(usage, delta) == four + When(!Visible(delta) && delta.usage.Some?, Start(usage));
    FieldsAreFour(usage, delta, kind);
    hide *;
    OneCarried(delta.text != "", text, kind);
    MoreCarried(one, delta.thinking != "", thinking, kind);
    MoreCarried(two, delta.inputJson != "", input, kind);
    MoreCarried(three, delta.refusal != "", refusal, kind);
    MoreCarried(four, !Visible(delta) && delta.usage.Some?, Start(usage), kind);
  }

  /** Each of the four texts of a record is shown as what it is, in the order of the protocol. */
  lemma RecordShows(usage: Option<Usage>, delta: Delta)
    ensures Shows(DeltaEvents(usage, delta), usage, delta)
  {
    RecordInPlace(usage, delta);
    forall kind ensures Carried(DeltaEvents(usage, delta), kind) == FieldOf(delta, kind) {
      RecordCarries(usage, delta, kind);
    }
    hide DeltaEvents;
    hide Carried;
  }

  // The last value that was reported, of each kind.

  function LastInput(deltas: seq<Delta>): nat {
    if deltas == [] then 0
    else
      var patch := Last(deltas).usage;
      if patch.Some? && patch.value.input.Some? then patch.value.input.value else LastInput(Front(deltas))
  }

  function LastOutput(deltas: seq<Delta>): nat {
    if deltas == [] then 0
    else
      var patch := Last(deltas).usage;
      if patch.Some? && patch.value.output.Some? then patch.value.output.value else LastOutput(Front(deltas))
  }

  function LastPatch(deltas: seq<Delta>): Option<UsagePatch> {
    if deltas == [] then None
    else if Last(deltas).usage.Some? then Last(deltas).usage
    else LastPatch(Front(deltas))
  }

  function LastReason(deltas: seq<Delta>): Option<string> {
    if deltas == [] then None
    else if Last(deltas).stopReason.Some? then Last(deltas).stopReason
    else LastReason(Front(deltas))
  }

  /** The usage after some records: the counters reported last, and the total of the last report or their sum. */
  function UsageAfter(deltas: seq<Delta>): Option<Usage> {
    var patch := LastPatch(deltas);
    if patch.None? then None
    else
      var input, output := LastInput(deltas), LastOutput(deltas);
      Some(Usage(input, output, if patch.value.total.Some? then patch.value.total.value else input + output))
  }

  /** One event list for each record, told the usage so far. */
  function EventsOf(deltas: seq<Delta>): seq<ChatEvent> {
    if deltas == [] then [] else EventsOf(Front(deltas)) + DeltaEvents(UsageAfter(deltas), Last(deltas))
  }

  function SizeOf(deltas: seq<Delta>): nat {
    if deltas == [] then 0
    else
      var d := Last(deltas);
      SizeOf(Front(deltas)) + |d.text| + |d.thinking| + |d.inputJson| + |d.refusal|
  }

  predicate CarriesRecord(line: string) {
    DataOf(line) != "" && DataOf(line) != "[DONE]"
  }

  /** The line marks the end of the answer. */
  predicate Marks(line: string, parse: string -> Record) {
    DataOf(line) == "[DONE]"
    || (CarriesRecord(line) && parse(DataOf(line)).Parsed? && parse(DataOf(line)).delta.done)
  }

  /** The line carries something that is no delta. */
  predicate Fails(line: string, parse: string -> Record) {
    CarriesRecord(line) && !parse(DataOf(line)).Parsed?
  }

  function DeltasOf(lines: seq<string>, parse: string -> Record): seq<Delta> {
    if lines == [] then []
    else
      var line := Last(lines);
      DeltasOf(Front(lines), parse)
      + if CarriesRecord(line) && parse(DataOf(line)).Parsed? then [parse(DataOf(line)).delta] else []
  }

  /** None of the lines ends the reading, and together they keep within the limit. */
  predicate Open(lines: seq<string>, parse: string -> Record) {
    && (forall i :: 0 <= i < |lines| ==> !Marks(lines[i], parse) && !Fails(lines[i], parse))
    && SizeOf(DeltasOf(lines, parse)) <= MAX_RESPONSE_LENGTH
  }

  /** The lines up to the first that ends the reading. */
  function ReadOf(lines: seq<string>, parse: string -> Record): (read: seq<string>)
    ensures read <= lines
    ensures read != [] ==> Open(Front(read), parse)
    decreases |lines|
  {
    if lines == [] then []
    else if Open(Front(lines), parse) then lines
    else ReadOf(Front(lines), parse)
  }

  lemma {:induction false} NothingReported(deltas: seq<Delta>)
    requires LastPatch(deltas).None?
    ensures LastInput(deltas) == LastOutput(deltas) == 0
    decreases |deltas|
  {
    if deltas != [] {
      NothingReported(Front(deltas));
    }
  }

  lemma OneMoreReport(deltas: seq<Delta>, d: Delta)
    ensures UsageAfter(deltas + [d]) == MergeUsage(UsageAfter(deltas), d.usage)
    ensures LastReason(deltas + [d]) == if d.stopReason.Some? then d.stopReason else LastReason(deltas)
  {
    assert Front(deltas + [d]) == deltas;
    if LastPatch(deltas).None? {
      NothingReported(deltas);
    }
  }

  lemma OneMoreDelta(deltas: seq<Delta>, d: Delta)
    ensures Front(deltas + [d]) == deltas && Last(deltas + [d]) == d
    ensures SizeOf(deltas + [d]) == SizeOf(deltas) + |d.text| + |d.thinking| + |d.inputJson| + |d.refusal|
    ensures EventsOf(deltas + [d]) == EventsOf(deltas) + DeltaEvents(UsageAfter(deltas + [d]), d)
  {
    hide DeltaEvents;
    hide UsageAfter;
    assert Front(deltas + [d]) == deltas;
  }

  lemma OneMoreLine(lines: seq<string>, parse: string -> Record)
    requires lines != []
    ensures SizeOf(DeltasOf(Front(lines), parse)) <= SizeOf(DeltasOf(lines, parse))
  {
    hide DataOf;
    hide SizeOf;
    var line := Last(lines);
    if CarriesRecord(line) && parse(DataOf(line)).Parsed? {
      OneMoreDelta(DeltasOf(Front(lines), parse), parse(DataOf(line)).delta);
    } else {
      assert DeltasOf(lines, parse) == DeltasOf(Front(lines), parse);
    }
  }

  lemma OpenLines(lines: seq<string>, parse: string -> Record)
    requires lines != []
    ensures Open(lines, parse) <==>
              && Open(Front(lines), parse) && !Marks(Last(lines), parse) && !Fails(Last(lines), parse)
              && SizeOf(DeltasOf(lines, parse)) <= MAX_RESPONSE_LENGTH
  {
    hide Marks;
    hide Fails;
    hide DeltasOf;
    hide SizeOf;
    OneMoreLine(lines, parse);
    var front := Front(lines);
    assert forall i :: 0 <= i < |front| ==> front[i] == lines[i];
    assert Last(lines) == lines[|front|];
  }

  lemma {:induction false} EventsCarry(deltas: seq<Delta>, kind: Kind)
    ensures Carried(EventsOf(deltas), kind) == Fields(deltas, kind)
    decreases |deltas|
  {
    if deltas != [] {
      EventsCarry(Front(deltas), kind);
      CarriedByBoth(EventsOf(Front(deltas)), DeltaEvents(UsageAfter(deltas), Last(deltas)), kind);
      RecordCarries(UsageAfter(deltas), Last(deltas), kind);
      hide Carried;
      hide DeltaEvents;
      hide FieldOf;
    }
  }

  function Fitting(deltas: seq<Delta>): seq<Delta> {
    if SizeOf(deltas) <= MAX_RESPONSE_LENGTH then deltas else Front(deltas)
  }

  /** Where reading stands, told by the lines it has read: the last one may have ended it. */
  predicate Tells(p: Progress, read: seq<string>, parse: string -> Record) {
    var deltas := DeltasOf(read, parse);
    && p.state.events == EventsOf(Fitting(deltas))
    && p.state.responseLength == SizeOf(deltas)
    && p.state.usage == UsageAfter(deltas) && p.state.stopReason == LastReason(deltas)
    && (p.state.doneEvent <==>
          read != [] && SizeOf(deltas) <= MAX_RESPONSE_LENGTH && Marks(Last(read), parse))
    && (p.Thrown? <==> SizeOf(deltas) > MAX_RESPONSE_LENGTH || (read != [] && Fails(Last(read), parse)))
    && (p.Thrown? && p.error.Incomplete? <==>
          && SizeOf(deltas) <= MAX_RESPONSE_LENGTH && read != [] && CarriesRecord(Last(read))
          && parse(DataOf(Last(read))) == ProviderError(true))
  }

  lemma DeltasOfMore(lines: seq<string>, line: string, parse: string -> Record)
    ensures Front(lines + [line]) == lines && Last(lines + [line]) == line
    ensures DeltasOf(lines + [line], parse)
         == if CarriesRecord(line) && parse(DataOf(line)).Parsed?
            then DeltasOf(lines, parse) + [parse(DataOf(line)).delta] else DeltasOf(lines, parse)
  {
    hide DataOf;
    hide CarriesRecord;
    assert Front(lines + [line]) == lines;
  }

  lemma TellsDelta(deltas: seq<Delta>, state: StreamState, d: Delta)
    requires SizeOf(deltas) <= MAX_RESPONSE_LENGTH
    requires state.events == EventsOf(deltas) && state.responseLength == SizeOf(deltas)
    requires state.usage == UsageAfter(deltas) && state.stopReason == LastReason(deltas) && !state.doneEvent
    ensures var p, more := TakeDelta(state, d), deltas + [d];
            && p.state.events == EventsOf(Fitting(more)) && p.state.responseLength == SizeOf(more)
            && p.state.usage == UsageAfter(more) && p.state.stopReason == LastReason(more)
            && (p.Thrown? <==> SizeOf(more) > MAX_RESPONSE_LENGTH) && (p.Thrown? ==> p.error == Fatal)
            && (p.state.doneEvent <==> SizeOf(more) <= MAX_RESPONSE_LENGTH && d.done)
  {
    OneMoreDelta(deltas, d);
    OneMoreReport(deltas, d);
    hide DeltaEvents;
    hide UsageAfter;
    hide SizeOf;
    hide LastReason;
    hide EventsOf;
    hide MergeUsage;
    hide Visible;
  }

  lemma TellsOneMore(lines: seq<string>, line: string, p: Progress, parse: string -> Record)
    requires Open(lines, parse) && Tells(p, lines, parse) && !Stopped(p)
    ensures Tells(TakeLine(p.state, line, parse), lines + [line], parse)
    ensures Stopped(TakeLine(p.state, line, parse)) <==> !Open(lines + [line], parse)
  {
    hide DataOf;
    hide DeltasOf;
    hide UsageAfter;
    hide SizeOf;
    hide LastReason;
    hide EventsOf;
    hide TakeDelta;
    var deltas := DeltasOf(lines, parse);
    DeltasOfMore(lines, line, parse);
    OpenLines(lines + [line], parse);
    if CarriesRecord(line) && parse(DataOf(line)).Parsed? {
      TellsDelta(deltas, p.state, parse(DataOf(line)).delta);
    }
    hide Open;
  }

  lemma ReadAll(lines: seq<string>, parse: string -> Record)
    requires Open(lines, parse)
    ensures ReadOf(lines, parse) == lines
  {
    if lines != [] {
      OpenLines(lines, parse);
    }
  }

  /** Reading takes exactly the records of the lines up to the first that ends it, and nothing else. */
  lemma {:induction false} TakenRecords(lines: seq<string>, parse: string -> Record)
    ensures Tells(TakeLines(lines, parse), ReadOf(lines, parse), parse)
    ensures Stopped(TakeLines(lines, parse)) <==> !Open(lines, parse)
    decreases |lines|
  {
    hide Open;
    hide Tells;
    hide TakeLine;
    if lines == [] {
      NothingTaken(parse);
    } else {
      var front := Front(lines);
      TakenRecords(front, parse);
      if Open(lines, parse) {
        OpenMeansFront(lines, parse);
      }
      if Open(front, parse) {
        assert lines == front + [Last(lines)];
        ReadAll(front, parse);
        TellsOneMore(front, Last(lines), TakeLines(front, parse), parse);
      }
    }
  }

  lemma NothingTaken(parse: string -> Record)
    ensures Tells(TakeLines([], parse), ReadOf([], parse), parse) && Open([], parse)
  {
  }

  lemma OpenMeansFront(lines: seq<string>, parse: string -> Record)
    requires lines != [] && Open(lines, parse)
    ensures Open(Front(lines), parse)
  {
    OpenLines(lines, parse);
  }

  /**
   * What the caller is shown of a stream, cut anywhere into chunks: of each kind of text exactly what the records
   * carry of it, in order, and for each record at once; with it usage and stop reason as the records report them.
   */
  lemma StreamShowsItsRecords(text: string, closed: bool, parse: string -> Record)
    ensures var p, read := Reference(text, closed, parse), ReadOf(LinesOf(text, closed), parse);
            var deltas := DeltasOf(read, parse);
            && (forall kind :: Carried(p.state.events, kind) == Fields(Fitting(deltas), kind))
            && p.state.events == EventsOf(Fitting(deltas))
            && p.state.usage == UsageAfter(deltas) && p.state.stopReason == LastReason(deltas)
            && (p.At? <==> read != [] && SizeOf(deltas) <= MAX_RESPONSE_LENGTH && Marks(Last(read), parse))
            && (p.Thrown? && p.error.Fatal? <==>
                  || SizeOf(deltas) > MAX_RESPONSE_LENGTH
                  || (read != [] && Fails(Last(read), parse)
                      && parse(DataOf(Last(read))) != ProviderError(true)))
  {
    var lines := LinesOf(text, closed);
    TakenRecords(lines, parse);
    var deltas := DeltasOf(ReadOf(lines, parse), parse);
    forall kind ensures Carried(EventsOf(Fitting(deltas)), kind) == Fields(Fitting(deltas), kind) {
      EventsCarry(Fitting(deltas), kind);
    }
    hide TakeLines;
    hide ReadOf;
    hide DeltasOf;
    hide DataOf;
    hide LinesOf;
    hide Carried;
    hide Fields;
    hide EventsOf;
    hide SizeOf;
  }

  // ----- The incremental reader

  /** How a body ends: closed, with what the decoder still flushes, or cut off by a failing read. */
  datatype Ending = Closed(flushed: string) | Interrupted

  function TextOf(chunks: seq<string>, ending: Ending): string {
    Concat(chunks) + if ending.Closed? then ending.flushed else ""
  }

  lemma {:induction false} ConcatSplit(chunks: seq<string>, k: nat)
    requires k <= |chunks|
    ensures Concat(chunks) == Concat(chunks[..k]) + Concat(chunks[k..])
    decreases |chunks|
  {
    if k == |chunks| {
      assert chunks[..k] == chunks && chunks[k..] == [];
    } else {
      ConcatSplit(Front(chunks), k);
      var front, rest, last := Concat(chunks[..k]), Concat(Front(chunks)[k..]), Last(chunks);
      assert Front(chunks)[..k] == chunks[..k];
      assert Front(chunks[k..]) == Front(chunks)[k..];
      assert Concat(chunks) == (front + rest) + last == front + (rest + last);
    }
  }

  lemma ConcatNext(chunks: seq<string>, i: nat)
    requires i < |chunks|
    ensures Concat(chunks[..i + 1]) == Concat(chunks[..i]) + chunks[i]
    ensures Concat(chunks) == Concat(chunks[..i]) + chunks[i] + Concat(chunks[i + 1..])
  {
    ConcatSplit(chunks, i + 1);
    assert Front(chunks[..i + 1]) == chunks[..i];
  }

  /** Stopping in the lines of a prefix of the text is stopping in the text. */
  lemma StoppedEarly(read: string, rest: string, done: bool, taken: seq<string>, closed: bool, parse: string -> Record)
    requires done ==> closed && rest == ""
    requires taken <= LinesOf(read, done) && Stopped(TakeLines(taken, parse))
    ensures Reference(read + rest, closed, parse) == TakeLines(taken, parse)
  {
    hide SplitFrom;
    hide TakeLine;
    SplitContinues(read, rest);
    var lines := LinesOf(read + rest, closed);
    if done {
      assert read + rest == read;
    }
    assert taken <= lines;
    assert lines == taken + lines[|taken|..];
    StopIsFinal(taken, lines[|taken|..], parse);
  }

  /** The emissions of applyStreamDelta, one by one. */
  method EmitDelta(usage: Option<Usage>, delta: Delta) returns (emitted: seq<ChatEvent>, visible: bool)
    ensures emitted == DeltaEvents(usage, delta) && visible == Visible(delta)
  {
    emitted, visible := [], false;
    if delta.text != "" {
      visible := true;
      emitted := emitted + [TextDelta(delta.text, usage)];
    }
    ghost var one := When(delta.text != "", TextDelta(delta.text, usage));
    assert emitted == one;
    if delta.thinking != "" {
      visible := true;
      emitted := emitted + [Thinking(delta.thinking)];
    }
    ghost var two := one + When(delta.thinking != "", Thinking(delta.thinking));
    assert emitted == two;
    if delta.inputJson != "" {
      visible := true;
      emitted := emitted + [InputJson(delta.inputJson)];
    }
    assert emitted == two + When(delta.inputJson != "", InputJson(delta.inputJson));
    if delta.refusal != "" {
      visible := true;
      var reason := if delta.stopReason.Some? then delta.stopReason.value else "refusal";
      emitted := emitted + [Refusal(delta.refusal, reason)];
    }
    if delta.text == "" && delta.thinking == "" && delta.inputJson == "" && delta.refusal == "" && delta.usage.Some? {
      emitted := emitted + [Start(usage)];
    }
  }

  /** applyStreamDelta */
  method ApplyStreamDelta(state: StreamState, delta: Delta) returns (r: Progress)
    ensures r == TakeDelta(state, delta)
  {
    var next := state.(usage := MergeUsage(state.usage, delta.usage));
    if delta.stopReason.Some? {
      next := next.(stopReason := delta.stopReason);
    }
    next := next.(responseLength :=
      next.responseLength + |delta.text| + |delta.thinking| + |delta.inputJson| + |delta.refusal|);
    if next.responseLength > MAX_RESPONSE_LENGTH {
      return Thrown(next, Fatal);
    }
    var emitted, visible := EmitDelta(next.usage, delta);
    next := next.(events := next.events + emitted);
    if visible {
      next := next.(emittedOutput := true);
    }
    if delta.done {
      next := next.(doneEvent := true);
    }
    return At(next);
  }

  /** One line that may carry a record. */
  method ConsumeLine(state: StreamState, line: string, parse: string -> Record) returns (r: Progress)
    ensures r == TakeLine(state, line, parse)
  {
    if !("data:" <= line) {
      return At(state);
    }
    var data := Trim(line[5..]);
    if data == "" {
      return At(state);
    }
    if data == "[DONE]" {
      return At(state.(doneEvent := true));
    }
    match parse(data)
    case Parsed(delta) =>
      r := ApplyStreamDelta(state, delta);
    case ProviderError(retryable) =>
      r := Thrown(state, if retryable then Incomplete(state.emittedOutput) else Fatal);
    case Malformed =>
      r := Thrown(state, Fatal);
  }

  /** The lines of one chunk; `already` are those of the chunks before. */
  method ConsumeLines(lines: seq<string>, ghost already: seq<string>, state: StreamState, parse: string -> Record)
    returns (r: Progress, ghost taken: nat)
    requires !state.doneEvent && TakeLines(already, parse) == At(state)
    ensures taken <= |lines| && r == TakeLines(already + lines[..taken], parse)
    ensures Stopped(r) || taken == |lines|
  {
    hide TakeLines;
    hide TakeLine;
    r, taken := At(state), 0;
    assert already + lines[..0] == already;
    for i := 0 to |lines|
      invariant taken == i
      invariant r == TakeLines(already + lines[..i], parse) && !Stopped(r)
    {
      TakeOneMore(already + lines[..i], lines[i], parse);
      assert already + lines[..i + 1] == already + lines[..i] + [lines[i]];
      r := ConsumeLine(r.state, lines[i], parse);
      taken := i + 1;
      if Stopped(r) {
        return;
      }
    }
  }

  /** One turn of the reading loop: split what is buffered, keep the unfinished line, take the others. */
  method ConsumeChunk(ghost read: string, buffer: string, text: string, done: bool, state: StreamState,
                      parse: string -> Record)
    returns (r: Progress, next: string, ghost taken: seq<string>)
    requires buffer == Last(Split(read)) && !state.doneEvent
    requires TakeLines(LinesOf(read, false), parse) == At(state)
    ensures taken <= LinesOf(read + text, done) && r == TakeLines(taken, parse)
    ensures Stopped(r) || taken == LinesOf(read + text, done)
    ensures !done ==> next == Last(Split(read + text))
  {
    hide SplitFrom;
    hide TakeLine;
    hide TakeLines;
    var lines := Split(buffer + text);
    SplitContinues(read, text);
    next := "";
    if !done {
      next := Last(lines);
      lines := Front(lines);
    }
    ghost var already := LinesOf(read, false);
    assert LinesOf(read + text, done) == already + lines;
    ghost var count;
    r, count := ConsumeLines(lines, already, state, parse);
    taken := already + lines[..count];
    assert lines[..|lines|] == lines;
  }

  /**
   * consumeEventStream, without its closing done event. However the text is cut into chunks, the outcome
   * is the one for the whole text.
   */
  method ConsumeEventStream(chunks: seq<string>, ending: Ending, parse: string -> Record) returns (r: Progress)
    ensures r == Reference(TextOf(chunks, ending), ending.Closed?, parse)
  {
    hide SplitFrom;
    hide TakeLine;
    hide TakeLines;
    hide Concat;
    var state := INITIAL;
    var buffer := "";
    var i := 0;
    ghost var read := "";
    NothingRead(parse);
    while true
      invariant 0 <= i <= |chunks| && read == Concat(chunks[..i])
      invariant buffer == Last(Split(read)) && !state.doneEvent
      invariant TakeLines(LinesOf(read, false), parse) == At(state)
      decreases |chunks| - i
    {
      if i == |chunks| && ending.Interrupted? {
        assert chunks[..i] == chunks;
        assert TextOf(chunks, ending) == read;
        return Thrown(state, Incomplete(state.emittedOutput));
      }
      var done := i == |chunks|;
      var text := if done then ending.flushed else chunks[i];
      ghost var rest := Unread(chunks, ending, i);
      ghost var taken;
      r, buffer, taken := ConsumeChunk(read, buffer, text, done, state, parse);
      if Stopped(r) {
        StoppedEarly(read + text, rest, done, taken, ending.Closed?, parse);
        return;
      }
      state := r.state;
      if done {
        assert read + text + rest == read + text;
        return Thrown(state, Incomplete(state.emittedOutput));
      }
      ConcatNext(chunks, i);
      read := read + text;
      i := i + 1;
    }
  }

  /** What is still to come after the read that brought chunk i, or the end. */
  ghost function Unread(chunks: seq<string>, ending: Ending, i: nat): (rest: string)
    requires i <= |chunks| && (i == |chunks| ==> ending.Closed?)
    ensures i < |chunks| ==> TextOf(chunks, ending) == Concat(chunks[..i]) + chunks[i] + rest
    ensures i == |chunks| ==> rest == "" && TextOf(chunks, ending) == Concat(chunks[..i]) + ending.flushed + rest
  {
    if i == |chunks| then
      assert chunks[..i] == chunks;
      ""
    else
      ConcatNext(chunks, i);
      Concat(chunks[i + 1..]) + if ending.Closed? then ending.flushed else ""
  }

  lemma NothingRead(parse: string -> Record)
    ensures Split("") == [""] && LinesOf("", false) == [] && Concat([]) == ""
    ensures TakeLines([], parse) == At(INITIAL)
  {
  }
}
