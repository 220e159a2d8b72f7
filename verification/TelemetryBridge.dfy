/**
 The domain-event telemetry bridge (middleware/telemetry_bridge.py).

 Start and token events are buffered per (trace, id) and folded into the one
 export of the terminal event.  The class `Bridge` mutates the three buffer maps
 as the program does; `Next` and `Outputs` say what one call does to them.  The
 history functions at the end (`TokenIndices`, `LastLlmStart`, `LastToolStart`)
 never look at a buffer: they say, from the calls alone, what each export must carry.
 */
module TelemetryBridge {
  import opened Text
  import opened Wrappers

  type Key = (string, string)

  datatype Event =
    | RunStarted(traceId: string, runId: string, threadId: string)
    | RunFinished(traceId: string, runId: string, threadId: string, error: Option<string>)
    | LLMMessageStarted(traceId: string, messageId: string, inputText: Option<string>)
    | LLMTokenEmitted(traceId: string, messageId: string, delta: string)
    | LLMMessageEnded(traceId: string, messageId: string, outputText: Option<string>, model: Option<string>,
                      tokensIn: Option<int>, tokensOut: Option<int>)
    | ToolCallStarted(traceId: string, toolCallId: string, toolName: string, argsJson: string)
    | ToolResultReceived(traceId: string, toolCallId: string, result: string)
    | UiOnly(traceId: string)  // the skipped event types

  /** One call into the bridge with what its surroundings contribute: the clock, and whether
      building its fields (the scrubber, the clock) or the exporter raises. */
  datatype Call =
    | Emit(event: Event, now: real, subject: Option<string>, releaseOnFinish: bool, buildRaises: bool, exportRaises: bool,
           releaseRaises: bool)
    | EmitRunFinished(finishedTrace: string, finishedRun: Option<string>, finishedThread: string, durationMs: int,
                      errored: bool, finishedSubject: Option<string>, release: bool, finishRaises: bool, dropRaises: bool)

  datatype Error = FieldsRaised

  datatype LlmStart = LlmStart(inputText: Option<string>, at: real)
  datatype ToolStart = ToolStart(toolName: string, argsJson: string, at: real)
  datatype Usage = Usage(input: int, output: int, total: int)

  datatype Attributes =
    | RunStartedAttrs(runId: string, threadId: string)
    | RunFinishedAttrs(runId: string, threadId: string, error: Option<string>, status: string)
    | SafetyNetAttrs(maybeRunId: Option<string>, threadId: string, durationMs: int, errored: bool)
    | ToolAttrs(toolCallId: string, toolName: Option<string>, argsJson: Option<string>, step: Option<nat>,
                latencyMs: Option<real>, result: string)
    | LlmAttrs(messageId: string, inputText: Option<string>, content: Option<string>, latencyMs: Option<real>,
               model: Option<string>, usage: Option<Usage>)

  datatype Output =
    | Exported(name: string, traceId: string, attributes: Attributes, subject: Option<string>)
    | Released(traceId: string)

  datatype Buffers = Buffers(tokens: map<Key, seq<string>>, llmStarts: map<Key, LlmStart>, toolStarts: map<Key, ToolStart>)

  const EMPTY_BUFFERS := Buffers(map[], map[], map[])

  // ----- field bounds and redaction

  const MAX_FIELD: nat := 4096
  const MAX_INPUT_TEXT: nat := 32768
  const TRUNCATION_MARKER := "\U{2026}[truncated]"

  /** Bounds a field and scrubs it; a cut is always marked. */
  function RedactAndTruncate(scrub: string -> string, value: string, limit: nat): string
    requires limit >= |TRUNCATION_MARKER|
  {
    if |value| <= limit then scrub(value)
    else scrub(value[..limit - |TRUNCATION_MARKER|]) + TRUNCATION_MARKER
  }

  /** A field that was cut says so, whatever the scrubber does. */
  lemma CutsAreMarked(scrub: string -> string, value: string, limit: nat)
    requires |TRUNCATION_MARKER| <= limit < |value|
    ensures var r := RedactAndTruncate(scrub, value, limit);
            |r| >= |TRUNCATION_MARKER| && r[|r| - |TRUNCATION_MARKER|..] == TRUNCATION_MARKER
  {
    var head := scrub(value[..limit - |TRUNCATION_MARKER|]);
    assert (head + TRUNCATION_MARKER)[|head|..] == TRUNCATION_MARKER;
  }

  /** The scrubber keeps within the room it is given, for whole fields and for cut ones. */
  ghost predicate KeepsRoom(scrub: string -> string, limit: nat)
    requires limit >= |TRUNCATION_MARKER|
  {
    && (forall v: string :: |v| <= limit ==> |scrub(v)| <= limit)
    && (forall v: string :: |v| == limit - |TRUNCATION_MARKER| ==> |scrub(v)| <= limit - |TRUNCATION_MARKER|)
  }

  /** Fields are cut before they are scrubbed, and not after: every field keeps its limit if and
      only if the scrubber does not outgrow the room it is given. */
  lemma FieldsKeepLimitIff(scrub: string -> string, limit: nat)
    requires limit >= |TRUNCATION_MARKER|
    ensures (forall v: string :: |RedactAndTruncate(scrub, v, limit)| <= limit) <==> KeepsRoom(scrub, limit)
  {
    var room := limit - |TRUNCATION_MARKER|;
    if forall v: string :: |RedactAndTruncate(scrub, v, limit)| <= limit {
      forall v: string | |v| <= limit
        ensures |scrub(v)| <= limit
      {
        assert |RedactAndTruncate(scrub, v, limit)| <= limit;
      }
      forall v: string | |v| == room
        ensures |scrub(v)| <= room
      {
        var longer := v + TRUNCATION_MARKER + " ";
        assert longer[..room] == v;
        assert |RedactAndTruncate(scrub, longer, limit)| <= limit;
      }
    }
  }

  const SHORT_MATCH := "a@b.co"
  const REPLACEMENT := "[REDACTED]"

  /** The scrubber's replacement is longer than the shortest text it replaces, so a full field that
      ends in a short address outgrows its limit. */
  lemma ShortMatchOutgrowsLimit(scrub: string -> string, head: string, limit: nat)
    requires |head| + |SHORT_MATCH| == limit >= |TRUNCATION_MARKER|
    requires scrub(head + SHORT_MATCH) == head + REPLACEMENT
    ensures |RedactAndTruncate(scrub, head + SHORT_MATCH, limit)| == limit + 4
    ensures !KeepsRoom(scrub, limit)
  {
    assert |head + SHORT_MATCH| == limit;
    FieldsKeepLimitIff(scrub, limit);
  }

  // ----- the step prefix of a tool call id

  predicate AllDigits(s: string) { forall i :: 0 <= i < |s| ==> '0' <= s[i] <= '9' }

  function ColonAt(s: string): nat {
    if s == "" || s[0] == ':' then 0 else 1 + ColonAt(s[1..])
  }

  function ToInt(s: string): nat
    requires AllDigits(s)
  {
    if s == "" then 0 else 10 * ToInt(s[..|s| - 1]) + (s[|s| - 1] as int - '0' as int)
  }

  function DeriveStep(toolCallId: string): Option<nat> {
    var k := ColonAt(toolCallId);
    if k >= |toolCallId| || k == 0 || !AllDigits(toolCallId[..k]) then None else Some(ToInt(toolCallId[..k]))
  }

  lemma {:induction false} DecimalIsRead(n: nat)
    ensures Decimal(n) != "" && AllDigits(Decimal(n)) && ToInt(Decimal(n)) == n
  {
    var d := Decimal(n);
    if n >= 10 {
      DecimalIsRead(n / 10);
    }
    assert d[|d| - 1] as int == '0' as int + n % 10;
    assert d[..|d| - 1] == if n < 10 then "" else Decimal(n / 10);
  }

  lemma {:induction false} ColonAfter(digits: string, rest: string)
    requires AllDigits(digits)
    ensures ColonAt(digits + ":" + rest) == |digits|
  {
    if digits != "" {
      assert (digits + ":" + rest)[1..] == digits[1..] + ":" + rest;
      ColonAfter(digits[1..], rest);
    }
  }

  /** The replay path writes a tool call id as the step, a colon, and the tool's own id: the step
      survives the round trip, whatever that id contains. */
  lemma StepRoundTrip(n: nat, toolId: string)
    ensures DeriveStep(Decimal(n) + ":" + toolId) == Some(n)
  {
    DecimalIsRead(n);
    ColonAfter(Decimal(n), toolId);
    assert (Decimal(n) + ":" + toolId)[..|Decimal(n)|] == Decimal(n);
  }

  // ----- what one call does

  function Lookup<V>(m: map<Key, V>, key: Key): Option<V> {
    if key in m then Some(m[key]) else None
  }

  function Without<V>(m: map<Key, V>, key: Key): map<Key, V> {
    map k | k in m && k != key :: m[k]
  }

  function WithoutTrace<V>(m: map<Key, V>, traceId: string): map<Key, V> {
    map k | k in m && k.0 != traceId :: m[k]
  }

  function Join(parts: seq<string>): string {
    if parts == [] then "" else parts[0] + Join(parts[1..])
  }

  /** `x or None` on an optional string: an empty string counts as absent. */
  function NonEmpty(x: Option<string>): Option<string> {
    if x.Some? && x.value != "" then x else None
  }

  function StartOf(scrub: string -> string, inputText: Option<string>, now: real): LlmStart {
    LlmStart(match NonEmpty(inputText) case None => None case Some(t) => Some(RedactAndTruncate(scrub, t, MAX_INPUT_TEXT)), now)
  }

  function ToolStartOf(scrub: string -> string, e: Event, now: real): ToolStart
    requires e.ToolCallStarted?
  {
    ToolStart(e.toolName, RedactAndTruncate(scrub, e.argsJson, MAX_FIELD), now)
  }

  function Latency(start: Option<real>, now: real): Option<real> {
    match start case None => None case Some(t) => Some((now - t) * 1000.0)
  }

  /** The export of a tool result, given the start it is merged with. */
  function ToolExport(scrub: string -> string, c: Call, start: Option<ToolStart>): Output
    requires c.Emit? && c.event.ToolResultReceived?
  {
    var name := match start case None => "unknown" case Some(s) => if s.toolName == "" then "unknown" else s.toolName;
    Exported("tool." + name, c.event.traceId,
             ToolAttrs(c.event.toolCallId,
                       match start case None => None case Some(s) => Some(s.toolName),
                       match start case None => None case Some(s) => Some(s.argsJson),
                       DeriveStep(c.event.toolCallId),
                       Latency(match start case None => None case Some(s) => Some(s.at), c.now),
                       RedactAndTruncate(scrub, c.event.result, MAX_FIELD)),
             c.subject)
  }

  function OrZero(x: Option<int>): int { if x.Some? then x.value else 0 }

  /** The export of a finished message, given its start and the text streamed for it. */
  function LlmExport(scrub: string -> string, c: Call, start: Option<LlmStart>, streamed: string): Output
    requires c.Emit? && c.event.LLMMessageEnded?
  {
    var e := c.event;
    var content := if NonEmpty(e.outputText).Some? then e.outputText else NonEmpty(Some(streamed));
    Exported("llm.call", e.traceId,
             LlmAttrs(e.messageId,
                      match start case None => None case Some(s) => s.inputText,
                      match content case None => None case Some(t) => Some(RedactAndTruncate(scrub, t, MAX_FIELD)),
                      Latency(match start case None => None case Some(s) => Some(s.at), c.now),
                      e.model,
                      if e.tokensIn.None? && e.tokensOut.None? then None
                      else Some(Usage(OrZero(e.tokensIn), OrZero(e.tokensOut), OrZero(e.tokensIn) + OrZero(e.tokensOut)))),
             c.subject)
  }

  function RunExport(c: Call): Output
    requires c.Emit? && (c.event.RunStarted? || c.event.RunFinished?)
  {
    var e := c.event;
    if e.RunStarted? then Exported("run.started", e.traceId, RunStartedAttrs(e.runId, e.threadId), c.subject)
    else Exported("run.finished", e.traceId,
                  RunFinishedAttrs(e.runId, e.threadId, e.error, if NonEmpty(e.error).Some? then "error" else "success"), c.subject)
  }

  function SafetyNetExport(c: Call): Output
    requires c.EmitRunFinished?
  {
    Exported("run.finished", c.finishedTrace,
             SafetyNetAttrs(c.finishedRun, c.finishedThread, c.durationMs, c.errored), c.finishedSubject)
  }

  function Next(scrub: string -> string, b: Buffers, c: Call): Buffers {
    if c.EmitRunFinished? then b
    else
      var e := c.event;
      match e
      case LLMTokenEmitted(t, m, delta) =>
        var soFar := if (t, m) in b.tokens then b.tokens[(t, m)] else [];
        b.(tokens := b.tokens[(t, m) := soFar + [delta]])
      case LLMMessageStarted(t, m, text) =>
        if c.buildRaises then b else b.(llmStarts := b.llmStarts[(t, m) := StartOf(scrub, text, c.now)])
      case ToolCallStarted(t, k, _, _) =>
        if c.buildRaises then b else b.(toolStarts := b.toolStarts[(t, k) := ToolStartOf(scrub, e, c.now)])
      case LLMMessageEnded(t, m, _, _, _, _) =>
        b.(tokens := Without(b.tokens, (t, m)), llmStarts := Without(b.llmStarts, (t, m)))
      case ToolResultReceived(t, k, _) => b.(toolStarts := Without(b.toolStarts, (t, k)))
      case RunFinished(t, _, _, _) =>
        if c.exportRaises then b
        else Buffers(WithoutTrace(b.tokens, t), WithoutTrace(b.llmStarts, t), WithoutTrace(b.toolStarts, t))
      case _ => b
  }

  /** The events whose export has scrubbed fields. */
  predicate Scrubs(e: Event) { e.LLMMessageEnded? || e.ToolResultReceived? }

  /** Nothing of the event reaches the backend. */
  predicate IsLost(c: Call)
    requires c.Emit?
  {
    c.exportRaises || (c.buildRaises && Scrubs(c.event))
  }

  function Outputs(scrub: string -> string, b: Buffers, c: Call): seq<Output> {
    if c.EmitRunFinished? then
      if c.finishRaises then []
      else [SafetyNetExport(c)] + if c.release && !c.dropRaises then [Released(c.finishedTrace)] else []
    else if IsLost(c) then []
    else
      match c.event
      case LLMMessageEnded(t, m, _, _, _, _) =>
        [LlmExport(scrub, c, Lookup(b.llmStarts, (t, m)), Join(if (t, m) in b.tokens then b.tokens[(t, m)] else []))]
      case ToolResultReceived(t, k, _) => [ToolExport(scrub, c, Lookup(b.toolStarts, (t, k)))]
      case RunStarted(_, _, _) => [RunExport(c)]
      case RunFinished(t, _, _, _) =>
        [RunExport(c)] + if c.releaseOnFinish && !c.releaseRaises then [Released(t)] else []
      case _ => []
  }

  // ----- the bridge object

  /** The exporter behind the port, reduced to what reached it. */
  class Exporter {
    var log: seq<Output>

    constructor ()
      ensures log == []
    {
      log := [];
    }

    /** False when the exporter raised: nothing reached the backend. */
    method Accept(o: Output, raises: bool) returns (ok: bool)
      modifies this
      ensures ok == !raises && log == if raises then old(log) else old(log) + [o]
    {
      ok := !raises;
      if ok {
        log := log + [o];
      }
    }
  }

  class Bridge {
    const scrub: string -> string
    var tokenBuffers: map<Key, seq<string>>
    var llmStartBuffers: map<Key, LlmStart>
    var toolStartBuffers: map<Key, ToolStart>

    function State(): Buffers
      reads this
    {
      Buffers(tokenBuffers, llmStartBuffers, toolStartBuffers)
    }

    constructor (scrub: string -> string)
      ensures State() == EMPTY_BUFFERS && this.scrub == scrub
    {
      this.scrub := scrub;
      tokenBuffers, llmStartBuffers, toolStartBuffers := map[], map[], map[];
    }

    /** Drops every entry of one map whose key belongs to the trace. */
    static method DropTrace<V>(m: map<Key, V>, traceId: string) returns (r: map<Key, V>)
      ensures r == WithoutTrace(m, traceId)
    {
      r := m;
      var todo := set k | k in m && k.0 == traceId;
      while todo != {}
        invariant todo <= m.Keys && forall k :: k in todo ==> k.0 == traceId
        invariant forall k :: k in r <==> k in m && (k.0 == traceId ==> k in todo)
        invariant forall k :: k in r ==> r[k] == m[k]
        decreases todo
      {
        var k :| k in todo;
        r := r - {k};
        todo := todo - {k};
      }
    }

    method ClearTraceBuffers(traceId: string)
      modifies this
      ensures State() == Buffers(WithoutTrace(old(tokenBuffers), traceId), WithoutTrace(old(llmStartBuffers), traceId),
                                 WithoutTrace(old(toolStartBuffers), traceId))
    {
      tokenBuffers := DropTrace(tokenBuffers, traceId);
      llmStartBuffers := DropTrace(llmStartBuffers, traceId);
      toolStartBuffers := DropTrace(toolStartBuffers, traceId);
    }

    /** Builds the export of an event that is not buffered, popping what it merges. */
    method BuildAttributes(c: Call) returns (r: Result<Option<Output>, Error>)
      requires c.Emit? && !c.event.LLMTokenEmitted? && !c.event.LLMMessageStarted? && !c.event.ToolCallStarted?
      modifies this
      ensures State() == if c.event.RunFinished? then old(State()) else Next(scrub, old(State()), c)
      ensures r.Err? <==> c.buildRaises && Scrubs(c.event)
      ensures r.Ok? ==> match r.value
                        case None => c.event.UiOnly?
                        case Some(o) => !c.event.UiOnly? && o.Exported? && Outputs(scrub, old(State()), c.(exportRaises := false))[0] == o
    {
      match c.event
      case RunStarted(_, _, _) =>
        return Ok(Some(RunExport(c)));
      case RunFinished(_, _, _, _) =>
        return Ok(Some(RunExport(c)));
      case ToolResultReceived(t, k, _) =>
        var start := Lookup(toolStartBuffers, (t, k));
        toolStartBuffers := Without(toolStartBuffers, (t, k));
        return if c.buildRaises then Err(FieldsRaised) else Ok(Some(ToolExport(scrub, c, start)));
      case LLMMessageEnded(t, m, _, _, _, _) =>
        var start := Lookup(llmStartBuffers, (t, m));
        llmStartBuffers := Without(llmStartBuffers, (t, m));
        var buffered := Join(if (t, m) in tokenBuffers then tokenBuffers[(t, m)] else []);
        tokenBuffers := Without(tokenBuffers, (t, m));
        return if c.buildRaises then Err(FieldsRaised) else Ok(Some(LlmExport(scrub, c, start, buffered)));
      case _ =>
        return Ok(None);
    }

    /** Handles one domain event.  It never fails, whatever the scrubber and the exporter do. */
    method EmitDomainEvent(exporter: Exporter, c: Call)
      requires c.Emit?
      modifies this, exporter
      ensures State() == Next(scrub, old(State()), c)
      ensures exporter.log == old(exporter.log) + Outputs(scrub, old(State()), c)
    {
      var e := c.event;
      if e.LLMTokenEmitted? {
        var key := (e.traceId, e.messageId);
        if key !in tokenBuffers {
          tokenBuffers := tokenBuffers[key := []];
        }
        tokenBuffers := tokenBuffers[key := tokenBuffers[key] + [e.delta]];
      } else if e.LLMMessageStarted? {
        if c.buildRaises {
          return;
        }
        llmStartBuffers := llmStartBuffers[(e.traceId, e.messageId) := StartOf(scrub, e.inputText, c.now)];
      } else if e.ToolCallStarted? {
        if c.buildRaises {
          return;
        }
        toolStartBuffers := toolStartBuffers[(e.traceId, e.toolCallId) := ToolStartOf(scrub, e, c.now)];
      } else {
        var built := BuildAttributes(c);
        if built.Ok? && built.value.Some? {
          var ok := exporter.Accept(built.value.value, c.exportRaises);
          if ok && c.event.RunFinished? {
            ClearTraceBuffers(c.event.traceId);
            if c.releaseOnFinish {
              var _ := exporter.Accept(Released(c.event.traceId), c.releaseRaises);
            }
          }
        }
      }
    }

    /** The safety net of the error paths: exports and releases, and leaves the
        buffers of the trace as they are. */
    method EmitRunFinishedSafetyNet(exporter: Exporter, c: Call)
      requires c.EmitRunFinished?
      modifies exporter
      ensures State() == Next(scrub, old(State()), c)
      ensures exporter.log == old(exporter.log) + Outputs(scrub, old(State()), c)
    {
      var ok := exporter.Accept(SafetyNetExport(c), c.finishRaises);
      if ok && c.release {
        var _ := exporter.Accept(Released(c.finishedTrace), c.dropRaises);
      }
    }
  }

  // ----- whole runs

  function Run(scrub: string -> string, cs: seq<Call>): Buffers {
    if cs == [] then EMPTY_BUFFERS else Next(scrub, Run(scrub, cs[..|cs| - 1]), cs[|cs| - 1])
  }

  function Log(scrub: string -> string, cs: seq<Call>): seq<Output> {
    if cs == [] then []
    else Log(scrub, cs[..|cs| - 1]) + Outputs(scrub, Run(scrub, cs[..|cs| - 1]), cs[|cs| - 1])
  }

  function TraceOf(c: Call): string {
    if c.Emit? then c.event.traceId else c.finishedTrace
  }

  function CallsOf(cs: seq<Call>, traceId: string): seq<Call> {
    if cs == [] then []
    else CallsOf(cs[..|cs| - 1], traceId) + if TraceOf(cs[|cs| - 1]) == traceId then [cs[|cs| - 1]] else []
  }

  function OutputsOf(os: seq<Output>, traceId: string): seq<Output> {
    if os == [] then []
    else OutputsOf(os[..|os| - 1], traceId) + if os[|os| - 1].traceId == traceId then [os[|os| - 1]] else []
  }

  function OnlyTrace<V>(m: map<Key, V>, traceId: string): map<Key, V> {
    map k | k in m && k.0 == traceId :: m[k]
  }

  function BuffersOf(b: Buffers, traceId: string): Buffers {
    Buffers(OnlyTrace(b.tokens, traceId), OnlyTrace(b.llmStarts, traceId), OnlyTrace(b.toolStarts, traceId))
  }

  lemma {:induction false} OutputsOfConcat(xs: seq<Output>, ys: seq<Output>, traceId: string)
    ensures OutputsOf(xs + ys, traceId) == OutputsOf(xs, traceId) + OutputsOf(ys, traceId)
    decreases |ys|
  {
    if ys == [] {
      assert xs + ys == xs;
    } else {
      OutputsOfConcat(xs, ys[..|ys| - 1], traceId);
      assert (xs + ys)[..|xs + ys| - 1] == xs + ys[..|ys| - 1];
    }
  }

  lemma StepIsLocal(scrub: string -> string, b: Buffers, c: Call, traceId: string)
    ensures TraceOf(c) != traceId ==> BuffersOf(Next(scrub, b, c), traceId) == BuffersOf(b, traceId)
    ensures TraceOf(c) == traceId ==> BuffersOf(Next(scrub, b, c), traceId) == Next(scrub, BuffersOf(b, traceId), c)
  {
    if c.Emit? {
      var e := c.event;
      match e
      case LLMTokenEmitted(t, m, delta) =>
        OnlyTraceUpdate(b.tokens, (t, m), Next(scrub, b, c).tokens[(t, m)], traceId);
      case LLMMessageStarted(t, m, text) =>
        OnlyTraceUpdate(b.llmStarts, (t, m), StartOf(scrub, text, c.now), traceId);
      case ToolCallStarted(t, k, _, _) =>
        OnlyTraceUpdate(b.toolStarts, (t, k), ToolStartOf(scrub, e, c.now), traceId);
      case LLMMessageEnded(t, m, _, _, _, _) =>
        OnlyTraceWithout(b.tokens, (t, m), traceId);
        OnlyTraceWithout(b.llmStarts, (t, m), traceId);
      case ToolResultReceived(t, k, _) =>
        OnlyTraceWithout(b.toolStarts, (t, k), traceId);
      case RunFinished(t, _, _, _) =>
        OnlyTraceDrop(b.tokens, t, traceId);
        OnlyTraceDrop(b.llmStarts, t, traceId);
        OnlyTraceDrop(b.toolStarts, t, traceId);
      case _ =>
    }
  }

  lemma OutputsAreLocal(scrub: string -> string, b: Buffers, c: Call, traceId: string)
    ensures TraceOf(c) == traceId ==> Outputs(scrub, b, c) == Outputs(scrub, BuffersOf(b, traceId), c)
    ensures forall o :: o in Outputs(scrub, b, c) ==> o.traceId == TraceOf(c)
    ensures |Outputs(scrub, b, c)| <= 2
  {

  }

  lemma OnlyTraceUpdate<V>(m: map<Key, V>, key: Key, v: V, traceId: string)
    ensures OnlyTrace(m[key := v], traceId) == if key.0 == traceId then OnlyTrace(m, traceId)[key := v] else OnlyTrace(m, traceId)
  {
  }

  lemma OnlyTraceWithout<V>(m: map<Key, V>, key: Key, traceId: string)
    ensures OnlyTrace(Without(m, key), traceId)
            == if key.0 == traceId then Without(OnlyTrace(m, traceId), key) else OnlyTrace(m, traceId)
  {
  }

  lemma OnlyTraceDrop<V>(m: map<Key, V>, dropped: string, traceId: string)
    ensures OnlyTrace(WithoutTrace(m, dropped), traceId)
            == if dropped == traceId then WithoutTrace(OnlyTrace(m, traceId), dropped) else OnlyTrace(m, traceId)
  {
  }

  lemma OutputsOfOne(os: seq<Output>, owner: string, traceId: string)
    requires |os| <= 2 && forall o :: o in os ==> o.traceId == owner
    ensures OutputsOf(os, traceId) == if owner == traceId then os else []
  {
  }

  /** Traces do not interfere: however the calls of many traces are interleaved, the
      buffers and the exports of one trace are those of its own calls alone. */
  lemma {:induction false} TracesDoNotInterfere(scrub: string -> string, cs: seq<Call>, traceId: string)
    ensures BuffersOf(Run(scrub, cs), traceId) == Run(scrub, CallsOf(cs, traceId))
    ensures OutputsOf(Log(scrub, cs), traceId) == Log(scrub, CallsOf(cs, traceId))
    decreases |cs|
  {
    if cs != [] {
      var init, c := cs[..|cs| - 1], cs[|cs| - 1];
      TracesDoNotInterfere(scrub, init, traceId);
      var b := Run(scrub, init);
      StepIsLocal(scrub, b, c, traceId);
      OutputsAreLocal(scrub, b, c, traceId);
      OutputsOfConcat(Log(scrub, init), Outputs(scrub, b, c), traceId);
      OutputsOfOne(Outputs(scrub, b, c), TraceOf(c), traceId);
      if TraceOf(c) == traceId {
        assert CallsOf(cs, traceId)[..|CallsOf(cs, traceId)| - 1] == CallsOf(init, traceId);
      } else {
        assert CallsOf(cs, traceId) == CallsOf(init, traceId);
      }
    }
  }

  // ----- what the calls alone say an export must carry

  predicate StartsMessage(c: Call, key: Key) {
    c.Emit? && c.event.LLMMessageStarted? && (c.event.traceId, c.event.messageId) == key && !c.buildRaises
  }

  predicate StartsTool(c: Call, key: Key) {
    c.Emit? && c.event.ToolCallStarted? && (c.event.traceId, c.event.toolCallId) == key && !c.buildRaises
  }

  predicate EndsTool(c: Call, key: Key) {
    c.Emit? && c.event.ToolResultReceived? && (c.event.traceId, c.event.toolCallId) == key
  }

  predicate EndsMessage(c: Call, key: Key) {
    c.Emit? && c.event.LLMMessageEnded? && (c.event.traceId, c.event.messageId) == key
  }

  /** The run finish of a trace whose export went through. */
  predicate FinishesTrace(c: Call, traceId: string) {
    c.Emit? && c.event.RunFinished? && c.event.traceId == traceId && !c.exportRaises
  }

  predicate IsDelta(c: Call, key: Key) {
    c.Emit? && c.event.LLMTokenEmitted? && (c.event.traceId, c.event.messageId) == key
  }

  /** The deltas of a message that are pending: those since its last end, or since the
      last finish of its trace. */
  function TokenIndices(cs: seq<Call>, key: Key): seq<nat> {
    if cs == [] then []
    else
      var n := |cs| - 1;
      if EndsMessage(cs[n], key) || FinishesTrace(cs[n], key.0) then []
      else TokenIndices(cs[..n], key) + if IsDelta(cs[n], key) then [n] else []
  }

  predicate AreDeltas(cs: seq<Call>, idx: seq<nat>, key: Key) {
    && (forall p :: 0 <= p < |idx| ==> idx[p] < |cs| && IsDelta(cs[idx[p]], key))
    && (forall p, q :: 0 <= p < q < |idx| ==> idx[p] < idx[q])
  }

  /** Pending deltas come in the order they were emitted, and belong to the message. */
  lemma {:induction false} TokenIndicesAreDeltas(cs: seq<Call>, key: Key)
    ensures AreDeltas(cs, TokenIndices(cs, key), key)
    decreases |cs|
  {
    if cs != [] {
      var init, idx := cs[..|cs| - 1], TokenIndices(cs[..|cs| - 1], key);
      TokenIndicesAreDeltas(init, key);
      forall p | 0 <= p < |idx|
        ensures idx[p] < |init| && IsDelta(cs[idx[p]], key)
      {
        assert cs[idx[p]] == init[idx[p]];
      }
    }
  }

  function TextAt(cs: seq<Call>, i: nat): string {
    if i < |cs| && cs[i].Emit? && cs[i].event.LLMTokenEmitted? then cs[i].event.delta else ""
  }

  /** The texts of the pending deltas, in order. */
  function Deltas(cs: seq<Call>, key: Key): seq<string> {
    var idx := TokenIndices(cs, key);
    seq(|idx|, p requires 0 <= p < |idx| => TextAt(cs, idx[p]))
  }

  /** The last unconsumed start of a message. */
  function LastLlmStart(scrub: string -> string, cs: seq<Call>, key: Key): Option<LlmStart> {
    if cs == [] then None
    else
      var c := cs[|cs| - 1];
      if EndsMessage(c, key) || FinishesTrace(c, key.0) then None
      else if StartsMessage(c, key) then
        Some(StartOf(scrub, c.event.inputText, c.now))
      else LastLlmStart(scrub, cs[..|cs| - 1], key)
  }

  /** The last unconsumed start of a tool call. */
  function LastToolStart(scrub: string -> string, cs: seq<Call>, key: Key): Option<ToolStart> {
    if cs == [] then None
    else
      var c := cs[|cs| - 1];
      if EndsTool(c, key) || FinishesTrace(c, key.0) then None
      else if StartsTool(c, key) then
        Some(ToolStartOf(scrub, c.event, c.now))
      else LastToolStart(scrub, cs[..|cs| - 1], key)
  }

  lemma DeltasStep(cs: seq<Call>, key: Key)
    requires cs != []
    ensures var n := |cs| - 1;
            Deltas(cs, key) == if EndsMessage(cs[n], key) || FinishesTrace(cs[n], key.0) then []
                               else Deltas(cs[..n], key) + if IsDelta(cs[n], key) then [cs[n].event.delta] else []
  {
    var init, idx := cs[..|cs| - 1], TokenIndices(cs[..|cs| - 1], key);
    TokenIndicesAreDeltas(init, key);
    forall p | 0 <= p < |idx|
      ensures TextAt(init, idx[p]) == TextAt(cs, idx[p])
    {
      assert idx[p] < |init| && cs[idx[p]] == init[idx[p]];
    }
  }

  function Stored(deltas: seq<string>): Option<seq<string>> {
    if deltas == [] then None else Some(deltas)
  }

  lemma TokenStep(scrub: string -> string, b: Buffers, c: Call, key: Key, pending: seq<string>)
    requires Lookup(b.tokens, key) == Stored(pending)
    ensures Lookup(Next(scrub, b, c).tokens, key)
            == Stored(if EndsMessage(c, key) || FinishesTrace(c, key.0) then []
                      else pending + if IsDelta(c, key) then [c.event.delta] else [])
  {
    assert pending + [] == pending;
  }

  /** The buffers hold exactly the pending deltas and the unconsumed starts. */
  lemma {:induction false} BuffersAreTheHistory(scrub: string -> string, cs: seq<Call>, key: Key)
    ensures var b := Run(scrub, cs);
            && Lookup(b.tokens, key) == Stored(Deltas(cs, key))
            && Lookup(b.llmStarts, key) == LastLlmStart(scrub, cs, key)
            && Lookup(b.toolStarts, key) == LastToolStart(scrub, cs, key)
    decreases |cs|
  {
    if cs != [] {
      var init, c := cs[..|cs| - 1], cs[|cs| - 1];
      BuffersAreTheHistory(scrub, init, key);
      DeltasStep(cs, key);
      TokenStep(scrub, Run(scrub, init), c, key, Deltas(init, key));
    }
  }

  /** The one export of a finished message carries, unless it brings its own text, the
      in-order concatenation of exactly the pending deltas of that (trace, message),
      and merges the last unconsumed start. */
  lemma MergedCallCarriesPendingDeltas(scrub: string -> string, cs: seq<Call>, i: nat)
    requires i < |cs| && cs[i].Emit? && cs[i].event.LLMMessageEnded? && !IsLost(cs[i])
    ensures var key := (cs[i].event.traceId, cs[i].event.messageId);
            Outputs(scrub, Run(scrub, cs[..i]), cs[i])
            == [LlmExport(scrub, cs[i], LastLlmStart(scrub, cs[..i], key), Join(Deltas(cs[..i], key)))]
    ensures var e := cs[i].event;
            var streamed := Join(Deltas(cs[..i], (e.traceId, e.messageId)));
            var sent := Outputs(scrub, Run(scrub, cs[..i]), cs[i])[0];
            && sent.traceId == e.traceId && sent.attributes.LlmAttrs? && sent.attributes.messageId == e.messageId
            && (e.outputText.None? || e.outputText == Some("") ==>
                  sent.attributes.content
                  == if streamed == "" then None else Some(RedactAndTruncate(scrub, streamed, MAX_FIELD)))
  {
    BuffersAreTheHistory(scrub, cs[..i], (cs[i].event.traceId, cs[i].event.messageId));
  }

  /** A tool result merges the last unconsumed start of its own call, or none. */
  lemma MergedToolCarriesLastStart(scrub: string -> string, cs: seq<Call>, i: nat)
    requires i < |cs| && cs[i].Emit? && cs[i].event.ToolResultReceived? && !IsLost(cs[i])
    ensures var key := (cs[i].event.traceId, cs[i].event.toolCallId);
            Outputs(scrub, Run(scrub, cs[..i]), cs[i]) == [ToolExport(scrub, cs[i], LastToolStart(scrub, cs[..i], key))]
  {
    BuffersAreTheHistory(scrub, cs[..i], (cs[i].event.traceId, cs[i].event.toolCallId));
  }

  /** Between `j` and `i` the message is neither restarted, nor ended, nor dropped. */
  predicate MessageUndisturbed(cs: seq<Call>, j: nat, i: nat, key: Key) {
    forall h :: j < h < i && h < |cs| ==> !StartsMessage(cs[h], key) && !EndsMessage(cs[h], key) && !FinishesTrace(cs[h], key.0)
  }

  predicate ToolUndisturbed(cs: seq<Call>, j: nat, i: nat, key: Key) {
    forall h :: j < h < i && h < |cs| ==> !StartsTool(cs[h], key) && !EndsTool(cs[h], key) && !FinishesTrace(cs[h], key.0)
  }

  lemma {:induction false} MessageStartWaits(scrub: string -> string, cs: seq<Call>, j: nat, i: nat, key: Key)
    requires j < i <= |cs| && StartsMessage(cs[j], key) && MessageUndisturbed(cs, j, i, key)
    ensures LastLlmStart(scrub, cs[..i], key) == Some(StartOf(scrub, cs[j].event.inputText, cs[j].now))
    decreases i
  {
    assert cs[..i][..i - 1] == cs[..i - 1];
    if j < i - 1 {
      MessageStartWaits(scrub, cs, j, i - 1, key);
    }
  }

  lemma {:induction false} ToolStartWaits(scrub: string -> string, cs: seq<Call>, j: nat, i: nat, key: Key)
    requires j < i <= |cs| && StartsTool(cs[j], key) && ToolUndisturbed(cs, j, i, key)
    ensures LastToolStart(scrub, cs[..i], key) == Some(ToolStartOf(scrub, cs[j].event, cs[j].now))
    decreases i
  {
    assert cs[..i][..i - 1] == cs[..i - 1];
    if j < i - 1 {
      ToolStartWaits(scrub, cs, j, i - 1, key);
    }
  }

  /** From start to end: the export of a message carries the input its start brought, scrubbed
      and bounded, and the time between the two calls, whatever happened in between. */
  lemma MessageIsFolded(scrub: string -> string, cs: seq<Call>, j: nat, i: nat, key: Key)
    requires j < i < |cs| && StartsMessage(cs[j], key) && EndsMessage(cs[i], key) && !IsLost(cs[i])
    requires MessageUndisturbed(cs, j, i, key)
    ensures var sent := Outputs(scrub, Run(scrub, cs[..i]), cs[i]);
            && |sent| == 1 && sent[0].Exported? && sent[0].name == "llm.call" && sent[0].traceId == key.0
            && sent[0].attributes.LlmAttrs? && sent[0].attributes.messageId == key.1
            && sent[0].attributes.latencyMs == Some((cs[i].now - cs[j].now) * 1000.0)
            && (var text := cs[j].event.inputText;
                sent[0].attributes.inputText == if text.None? || text.value == "" then None
                                                else Some(RedactAndTruncate(scrub, text.value, MAX_INPUT_TEXT)))
  {
    MessageStartWaits(scrub, cs, j, i, key);
    MergedCallCarriesPendingDeltas(scrub, cs, i);
  }

  /** Likewise for a tool call: name, arguments, result and duration. */
  lemma ToolCallIsFolded(scrub: string -> string, cs: seq<Call>, j: nat, i: nat, key: Key)
    requires j < i < |cs| && StartsTool(cs[j], key) && EndsTool(cs[i], key) && !IsLost(cs[i])
    requires ToolUndisturbed(cs, j, i, key)
    ensures var sent := Outputs(scrub, Run(scrub, cs[..i]), cs[i]);
            && |sent| == 1 && sent[0].Exported? && sent[0].traceId == key.0
            && sent[0].name == "tool." + (if cs[j].event.toolName == "" then "unknown" else cs[j].event.toolName)
            && sent[0].attributes == ToolAttrs(key.1, Some(cs[j].event.toolName),
                                               Some(RedactAndTruncate(scrub, cs[j].event.argsJson, MAX_FIELD)), DeriveStep(key.1),
                                               Some((cs[i].now - cs[j].now) * 1000.0),
                                               RedactAndTruncate(scrub, cs[i].event.result, MAX_FIELD))
  {
    ToolStartWaits(scrub, cs, j, i, key);
    MergedToolCarriesLastStart(scrub, cs, i);
  }

  /** Call `i` takes delta `j` out of the buffers: as part of an export, or at a run finish. */
  predicate Settles(cs: seq<Call>, i: nat, j: nat, key: Key) {
    i < |cs| && (EndsMessage(cs[i], key) || FinishesTrace(cs[i], key.0)) && j in TokenIndices(cs[..i], key)
  }

  lemma {:induction false} PendingSinceIsKept(cs: seq<Call>, j: nat, i: nat, key: Key)
    requires j < i <= |cs| && IsDelta(cs[j], key)
    ensures j in TokenIndices(cs[..i], key)
            <==> forall h :: j < h < i ==> !EndsMessage(cs[h], key) && !FinishesTrace(cs[h], key.0)
    decreases i
  {
    assert cs[..i][..i - 1] == cs[..i - 1];
    TokenIndicesAreDeltas(cs[..i - 1], key);
    if j < i - 1 {
      PendingSinceIsKept(cs, j, i - 1, key);
    }
  }

  /** Every delta is accounted for once: it is still pending, or exactly one call
      settled it.  So no delta reaches two exports. */
  lemma DeltasAreConserved(cs: seq<Call>, j: nat, key: Key)
    requires j < |cs| && IsDelta(cs[j], key)
    ensures forall i, i' :: Settles(cs, i, j, key) && Settles(cs, i', j, key) ==> i == i'
    ensures j in TokenIndices(cs, key) <==> forall i :: !Settles(cs, i, j, key)
    ensures forall other, i :: other != key ==> !Settles(cs, i, j, other)
  {
    assert cs[..|cs|] == cs;
    PendingSinceIsKept(cs, j, |cs|, key);
    forall i | i < |cs| && j < i
      ensures j in TokenIndices(cs[..i], key)
              <==> forall h :: j < h < i ==> !EndsMessage(cs[h], key) && !FinishesTrace(cs[h], key.0)
    {
      PendingSinceIsKept(cs, j, i, key);
    }
    forall k: Key, i: nat | i < |cs| && j in TokenIndices(cs[..i], k)
      ensures j < i && k == key
    {
      TokenIndicesAreDeltas(cs[..i], k);
      assert cs[..i][j] == cs[j];
    }
    if j !in TokenIndices(cs, key) {
      var first := FirstReset(cs, j, key);
      assert Settles(cs, first, j, key);
    }
  }

  lemma FirstReset(cs: seq<Call>, j: nat, key: Key) returns (first: nat)
    requires j < |cs| && exists h :: j < h < |cs| && (EndsMessage(cs[h], key) || FinishesTrace(cs[h], key.0))
    ensures j < first < |cs| && (EndsMessage(cs[first], key) || FinishesTrace(cs[first], key.0))
    ensures forall h :: j < h < first ==> !EndsMessage(cs[h], key) && !FinishesTrace(cs[h], key.0)
  {
    first := j + 1;
    while !(EndsMessage(cs[first], key) || FinishesTrace(cs[first], key.0))
      invariant j < first < |cs|
      invariant exists h :: first <= h < |cs| && (EndsMessage(cs[h], key) || FinishesTrace(cs[h], key.0))
      invariant forall h :: j < h < first ==> !EndsMessage(cs[h], key) && !FinishesTrace(cs[h], key.0)
      decreases |cs| - first
    {
      first := first + 1;
    }
  }

  predicate HoldsTrace(b: Buffers, traceId: string) {
    BuffersOf(b, traceId) != EMPTY_BUFFERS
  }

  /** A run finish leaves no entry of its trace behind, in any of the three maps,
      exactly when its export went through or there was nothing to leave. */
  lemma RunFinishClears(scrub: string -> string, b: Buffers, c: Call)
    requires c.Emit? && c.event.RunFinished?
    ensures !HoldsTrace(Next(scrub, b, c), c.event.traceId) <==> !c.exportRaises || !HoldsTrace(b, c.event.traceId)
  {
  }

  /** The safety net is no run finish for the buffers: deltas of a dead run stay, and
      are folded into the next export of the same trace and message. */
  lemma SafetyNetKeepsDeltas(scrub: string -> string, cs: seq<Call>, c: Call, key: Key)
    requires c.EmitRunFinished?
    ensures Run(scrub, cs + [c]) == Run(scrub, cs)
    ensures Deltas(cs + [c], key) == Deltas(cs, key)
  {
  }

  /** Two calls that differ at most in what the exporter does, except at a run finish. */
  predicate SameButForExporter(x: Call, y: Call) {
    if x.Emit? && y.Emit? then
      && x.event == y.event && x.now == y.now && x.buildRaises == y.buildRaises
      && (x.event.RunFinished? ==> x.exportRaises == y.exportRaises)
    else x.EmitRunFinished? && y.EmitRunFinished?
  }

  lemma StepIgnoresExporter(scrub: string -> string, b: Buffers, x: Call, y: Call)
    requires SameButForExporter(x, y)
    ensures Next(scrub, b, x) == Next(scrub, b, y)
  {
  }

  predicate AllSameButForExporter(xs: seq<Call>, ys: seq<Call>) {
    |xs| == |ys| && forall i :: 0 <= i < |xs| ==> SameButForExporter(xs[i], ys[i])
  }

  lemma {:induction false} BuffersIgnoreExporter(scrub: string -> string, xs: seq<Call>, ys: seq<Call>)
    requires AllSameButForExporter(xs, ys)
    ensures Run(scrub, xs) == Run(scrub, ys)
    decreases |xs|
  {
    if xs != [] {
      var n := |xs| - 1;
      BuffersIgnoreExporter(scrub, xs[..n], ys[..n]);
      StepIgnoresExporter(scrub, Run(scrub, xs[..n]), xs[n], ys[n]);
    }
  }

  /** Apart from run finishes, a failing exporter loses its own export and nothing else: the buffers
      are the same, and every call that goes the same way in both runs exports the same. */
  lemma ExporterFailuresStayLocal(scrub: string -> string, xs: seq<Call>, ys: seq<Call>)
    requires AllSameButForExporter(xs, ys)
    ensures Run(scrub, xs) == Run(scrub, ys)
    ensures forall i :: 0 <= i < |xs| && xs[i] == ys[i] ==>
              Outputs(scrub, Run(scrub, xs[..i]), xs[i]) == Outputs(scrub, Run(scrub, ys[..i]), ys[i])
  {
    BuffersIgnoreExporter(scrub, xs, ys);
    forall i | 0 <= i < |xs|
      ensures Run(scrub, xs[..i]) == Run(scrub, ys[..i])
    {
      BuffersIgnoreExporter(scrub, xs[..i], ys[..i]);
    }
  }
}
