/**
  The OpenAI-style stream transform: every decoded provider chunk
  `{id, choices: [{delta, finish_reason, index}]}` becomes one protocol frame,
  written as the three pieces `id: …\n`, `event: …\n` and `data: <json>\n\n`.

  `Classify` is the per-chunk dispatch, `Step` builds the frame of one chunk
  from the tool-call id memory kept so far, `Run` is the whole stream as a
  function, and the method `OpenAIStream` is the stream loop with its observer
  hooks, proved equal to `Run`.
*/
module Streams {
  import opened Optional
  import opened Json

  // ---------------------------------------------------------------------
  // Provider chunks

  /** The `content` field of a delta: absent, `null`, or a string. */
  datatype Content = Absent | NullContent | Text(text: string)

  datatype FunctionCall = FunctionCall(name: Option<string>, arguments: Option<string>)

  /** One tool-call fragment as the provider sent it. */
  datatype ToolCall = ToolCall(id: Option<string>, index: Option<int>, kind: Option<string>, call: FunctionCall)

  /** A delta; `other` holds the fields the transform does not look at, in order. */
  datatype Delta = Delta(role: Option<string>, content: Content, toolCalls: Option<seq<ToolCall>>, other: seq<(string, Json)>)

  /** A choice; `delta == None` is a `null` delta, `finishReason == None` an absent or `null` reason. */
  datatype Choice = Choice(delta: Option<Delta>, finishReason: Option<string>, index: Option<int>)

  /** A chunk; `choices == None` is a chunk without a `choices` field. */
  datatype Chunk = Chunk(id: string, choices: Option<seq<Choice>>, other: seq<(string, Json)>)

  // ---------------------------------------------------------------------
  // Protocol frames

  datatype EventKind = TextEvent | ToolCallsEvent | StopEvent | DataEvent | ErrorEvent

  function EventName(k: EventKind): string
  {
    match k
    case TextEvent => "text"
    case ToolCallsEvent => "tool_calls"
    case StopEvent => "stop"
    case DataEvent => "data"
    case ErrorEvent => "error"
  }

  /** What a frame carries, before it is written as JSON: the text, the
      normalised tool calls, the finish reason, a delta sent as it is, a delta
      wrapped with the chunk id and choice index, or the chunk that could not be
      read. */
  datatype Payload =
    | TextData(text: string)
    | ToolCallsData(calls: seq<NormalizedCall>)
    | StopData(reason: string)
    | DeltaData(delta: Delta)
    | WrappedDelta(maybeDelta: Option<Delta>, chunkId: string, index: Option<int>)
    | ChunkError(chunk: Chunk)

  datatype Frame = Frame(id: string, event: EventKind, data: Payload)

  /** A tool-call fragment after normalisation: `{function, id, index, type}`. */
  datatype NormalizedCall = NormalizedCall(call: FunctionCall, id: Option<string>, index: int, kind: string)

  // ---------------------------------------------------------------------
  // JSON views of the records (keys in a fixed order; absent fields omitted,
  // as JSON.stringify omits `undefined`)

  function OptionalField(key: string, v: Option<Json>): seq<(string, Json)>
  {
    if v.Some? then [(key, v.value)] else []
  }

  function OptionalStr(s: Option<string>): Option<Json>
  {
    if s.Some? then Some(Str(s.value)) else None
  }

  function OptionalNum(n: Option<int>): Option<Json>
  {
    if n.Some? then Some(Num(n.value)) else None
  }

  function FunctionJson(f: FunctionCall): Json
  {
    Obj(OptionalField("name", OptionalStr(f.name)) + OptionalField("arguments", OptionalStr(f.arguments)))
  }

  function ToolCallJson(t: ToolCall): Json
  {
    Obj(OptionalField("id", OptionalStr(t.id)) + OptionalField("index", OptionalNum(t.index))
        + OptionalField("type", OptionalStr(t.kind)) + [("function", FunctionJson(t.call))])
  }

  function ContentJson(c: Content): Option<Json>
  {
    match c
    case Absent => None
    case NullContent => Some(Null)
    case Text(s) => Some(Str(s))
  }

  function DeltaJson(d: Delta): Json
  {
    var calls := if d.toolCalls.Some?
      then Some(Arr(seq(|d.toolCalls.value|, k requires 0 <= k < |d.toolCalls.value| => ToolCallJson(d.toolCalls.value[k]))))
      else None;
    Obj(OptionalField("role", OptionalStr(d.role)) + OptionalField("content", ContentJson(d.content))
        + OptionalField("tool_calls", calls) + d.other)
  }

  function OptionalDeltaJson(d: Option<Delta>): Json
  {
    if d.Some? then DeltaJson(d.value) else Null
  }

  /** `ChunkJson` is written only for chunks without a first choice, whose
      `choices` list is absent or empty, so this is never reached; it exists so
      that `ChunkJson` covers every chunk. */
  function ChoiceJson(c: Choice): Json
  {
    Obj(OptionalField("index", OptionalNum(c.index)) + [("delta", OptionalDeltaJson(c.delta))]
        + OptionalField("finish_reason", OptionalStr(c.finishReason)))
  }

  function ChunkJson(c: Chunk): Json
  {
    var choices := if c.choices.Some?
      then Some(Arr(seq(|c.choices.value|, k requires 0 <= k < |c.choices.value| => ChoiceJson(c.choices.value[k]))))
      else None;
    Obj([("id", Str(c.id))] + OptionalField("choices", choices) + c.other)
  }

  function NormalizedCallJson(n: NormalizedCall): Json
  {
    Obj([("function", FunctionJson(n.call))] + OptionalField("id", OptionalStr(n.id))
        + [("index", Num(n.index)), ("type", Str(n.kind))])
  }

  function CallsJson(calls: seq<NormalizedCall>): Json
  {
    Arr(seq(|calls|, k requires 0 <= k < |calls| => NormalizedCallJson(calls[k])))
  }

  // ---------------------------------------------------------------------
  // Classification of one chunk

  /** JavaScript truthiness of an optional string: present and not empty. */
  predicate Truthy(s: Option<string>)
  {
    s.Some? && s.value != ""
  }

  predicate HasChoice(c: Chunk)
  {
    c.choices.Some? && c.choices.value != []
  }

  function FirstChoice(c: Chunk): Choice
    requires HasChoice(c)
  {
    c.choices.value[0]
  }

  predicate HasText(item: Choice)
  {
    item.delta.Some? && item.delta.value.content.Text?
  }

  predicate HasToolCalls(item: Choice)
  {
    item.delta.Some? && item.delta.value.toolCalls.Some?
  }

  predicate HasNullContent(item: Choice)
  {
    item.delta.Some? && item.delta.value.content.NullContent?
  }

  /** The event kind of a chunk, in the precedence the transform applies. */
  function Classify(c: Chunk): (k: EventKind)
    ensures k == ErrorEvent <==> !HasChoice(c)
    ensures k == TextEvent ==> HasText(FirstChoice(c))
    ensures k == ToolCallsEvent ==> HasToolCalls(FirstChoice(c))
    ensures k == StopEvent ==> Truthy(FirstChoice(c).finishReason)
    ensures HasChoice(c) && HasToolCalls(FirstChoice(c)) ==> k == ToolCallsEvent
    ensures HasChoice(c) && Truthy(FirstChoice(c).finishReason) && !HasToolCalls(FirstChoice(c)) ==> k == StopEvent
    ensures (HasChoice(c) && HasText(FirstChoice(c)) && !Truthy(FirstChoice(c).finishReason)
             && !HasToolCalls(FirstChoice(c))) ==> k == TextEvent
  {
    if !HasChoice(c) then ErrorEvent
    else
      var item := FirstChoice(c);
      if HasText(item) && !Truthy(item.finishReason) && !HasToolCalls(item) then TextEvent
      else if HasToolCalls(item) then ToolCallsEvent
      else if Truthy(item.finishReason) then StopEvent
      else DataEvent
  }

  function TextOf(c: Chunk): string
    requires Classify(c) == TextEvent
  {
    FirstChoice(c).delta.value.content.text
  }

  function ToolCallsOf(c: Chunk): seq<ToolCall>
    requires Classify(c) == ToolCallsEvent
  {
    FirstChoice(c).delta.value.toolCalls.value
  }

  // ---------------------------------------------------------------------
  // Tool-call normalisation and the id memory

  /** The id remembered for each tool-call index seen so far in the stream. */
  type IdMemory = map<int, string>

  /** What the stream learns from each fragment: its index and its own id. */
  type History = seq<(int, Option<string>)>

  function Recall(mem: IdMemory, index: int): Option<string>
  {
    if index in mem then Some(mem[index]) else None
  }

  function CallIndex(call: ToolCall, position: nat): int
  {
    if call.index.Some? then call.index.value else position
  }

  /** A fragment with a truthy id makes it the one remembered for its index. */
  function Remember(mem: IdMemory, index: int, id: Option<string>): IdMemory
  {
    if Truthy(id) then mem[index := id.value] else mem
  }

  /** The memory after a history has been taken in, first entry first. */
  function Fold(mem: IdMemory, h: History): IdMemory
    decreases |h|
  {
    if h == [] then mem else Remember(Fold(mem, h[..|h| - 1]), h[|h| - 1].0, h[|h| - 1].1)
  }

  function CallHistory(calls: seq<ToolCall>): History
  {
    seq(|calls|, k requires 0 <= k < |calls| => (CallIndex(calls[k], k), calls[k].id))
  }

  /** One fragment at `position` of its array: index defaults to the position,
      type to "function", a missing id to the one remembered for the index. */
  function NormalizeCall(call: ToolCall, position: nat, mem: IdMemory): NormalizedCall
  {
    var index := CallIndex(call, position);
    NormalizedCall(
      call.call,
      if Truthy(call.id) then call.id else Recall(mem, index),
      index,
      if Truthy(call.kind) then call.kind.value else "function")
  }

  /** The first n fragments normalised left to right, threading the id memory. */
  function NormalizeUpTo(calls: seq<ToolCall>, mem: IdMemory, n: nat): (r: (seq<NormalizedCall>, IdMemory))
    requires n <= |calls|
    ensures |r.0| == n
    decreases n
  {
    if n == 0 then ([], mem)
    else
      var prior := NormalizeUpTo(calls, mem, n - 1);
      (prior.0 + [NormalizeCall(calls[n - 1], n - 1, prior.1)],
       Remember(prior.1, CallIndex(calls[n - 1], n - 1), calls[n - 1].id))
  }

  /** A whole fragment array normalised, and the memory after it. */
  function Normalize(calls: seq<ToolCall>, mem: IdMemory): (r: (seq<NormalizedCall>, IdMemory))
    ensures |r.0| == |calls|
  {
    NormalizeUpTo(calls, mem, |calls|)
  }

  /** The memory after the first n fragments has seen exactly their indices and ids. */
  lemma {:induction false} NormalizeMemory(calls: seq<ToolCall>, mem: IdMemory, n: nat)
    requires n <= |calls|
    ensures NormalizeUpTo(calls, mem, n).1 == Fold(mem, CallHistory(calls)[..n])
    decreases n
  {
    if n > 0 {
      NormalizeMemory(calls, mem, n - 1);
      assert CallHistory(calls)[..n][..n - 1] == CallHistory(calls)[..n - 1];
    }
  }

  /** A fragment, once normalised, is not changed by the fragments after it. */
  lemma {:induction false} NormalizeStable(calls: seq<ToolCall>, mem: IdMemory, k: nat, n: nat)
    requires k < n <= |calls|
    ensures NormalizeUpTo(calls, mem, n).0[k] == NormalizeUpTo(calls, mem, k + 1).0[k]
    decreases n
  {
    if n > k + 1 {
      NormalizeStable(calls, mem, k, n - 1);
    }
  }

  /** Fragment k is normalised with the memory as it stands after fragments 0..k-1. */
  lemma NormalizeAt(calls: seq<ToolCall>, mem: IdMemory, k: nat)
    requires k < |calls|
    ensures Normalize(calls, mem).0[k] == NormalizeCall(calls[k], k, Fold(mem, CallHistory(calls)[..k]))
  {
    NormalizeStable(calls, mem, k, |calls|);
    NormalizeMemory(calls, mem, k);
  }

  /** Taking in two histories one after the other is taking in their concatenation. */
  lemma {:induction false} FoldAppend(mem: IdMemory, h1: History, h2: History)
    ensures Fold(mem, h1 + h2) == Fold(Fold(mem, h1), h2)
    decreases |h2|
  {
    if h2 == [] {
      assert h1 + h2 == h1;
    } else {
      var n := |h2| - 1;
      FoldAppend(mem, h1, h2[..n]);
      assert (h1 + h2)[..|h1 + h2| - 1] == h1 + h2[..n];
    }
  }

  /** `id` is the id of the last fragment in `h` with this index that had one,
      or None when no fragment with this index had an id. */
  ghost predicate IsLatestId(h: History, index: int, id: Option<string>)
  {
    if id.None? then forall k :: 0 <= k < |h| && h[k].0 == index ==> !Truthy(h[k].1)
    else exists k :: 0 <= k < |h| && h[k].0 == index && h[k].1 == id && Truthy(id)
                     && forall k' :: k < k' < |h| && h[k'].0 == index ==> !Truthy(h[k'].1)
  }

  /** The memory holds, for each index, the latest id seen with that index. */
  lemma {:induction false} LatestId(h: History, index: int)
    ensures IsLatestId(h, index, Recall(Fold(map[], h), index))
    decreases |h|
  {
    if h != [] {
      var n := |h| - 1;
      LatestId(h[..n], index);
      var before := Recall(Fold(map[], h[..n]), index);
      if h[n].0 == index && Truthy(h[n].1) {
        assert Recall(Fold(map[], h), index) == h[n].1;
      } else {
        assert Recall(Fold(map[], h), index) == before;
        if before.None? {
          forall k | 0 <= k < |h| && h[k].0 == index
            ensures !Truthy(h[k].1)
          {
            if k < n { assert h[..n][k] == h[k]; }
          }
        } else {
          var k :| 0 <= k < n && h[..n][k].0 == index && h[..n][k].1 == before && Truthy(before)
                   && forall k' :: k < k' < n && h[..n][k'].0 == index ==> !Truthy(h[..n][k'].1);
          assert h[k] == h[..n][k];
          forall k' | k < k' < |h| && h[k'].0 == index
            ensures !Truthy(h[k'].1)
          {
            if k' < n { assert h[..n][k'] == h[k']; }
          }
        }
      }
    }
  }

  function ChunkHistory(c: Chunk): History
  {
    if Classify(c) == ToolCallsEvent then CallHistory(ToolCallsOf(c)) else []
  }

  // ---------------------------------------------------------------------
  // Frames

  const ChunkErrorMessage: string :=
    "chat response streaming chunk parse error, please contact your API Provider to fix it."

  /** The runtime's TypeError text for reading the first choice of a chunk
      without one; kept as an opaque constant. */
  function TypeErrorMessage(c: Chunk): string
  {
    if c.choices.None? then "Cannot read properties of undefined (reading '0')"
    else "Cannot read properties of undefined (reading 'delta')"
  }

  /** The `StreamChunkError` record for a caught runtime error and the JSON
      of the chunk that caused it. */
  function StreamChunkError(errorMessage: string, chunk: Json): Json
  {
    Obj([("body", Obj([("message", Str(ChunkErrorMessage)),
                       ("context", Obj([("error", Obj([("message", Str(errorMessage)), ("name", Str("TypeError"))])),
                                        ("chunk", chunk)]))])),
         ("type", Str("StreamChunkError"))])
  }

  function ErrorPayload(c: Chunk): Json
  {
    StreamChunkError(TypeErrorMessage(c), ChunkJson(c))
  }

  /** A `data` frame carries a delta whose content is `null` as it is, and any
      other delta together with the chunk id and the choice index. */
  function DataPayload(c: Chunk): Payload
    requires Classify(c) == DataEvent
  {
    var item := FirstChoice(c);
    if HasNullContent(item) then DeltaData(item.delta.value) else WrappedDelta(item.delta, c.id, item.index)
  }

  /** A `data` frame sends the first choice's delta alone when its content is
      `null`, and otherwise wraps the (possibly absent) delta with the chunk id
      and the choice index. */
  lemma DataRecord(c: Chunk)
    requires Classify(c) == DataEvent
    ensures HasNullContent(FirstChoice(c)) ==> DataPayload(c) == DeltaData(FirstChoice(c).delta.value)
    ensures HasNullContent(FirstChoice(c)) ==> PayloadJson(DataPayload(c)) == DeltaJson(FirstChoice(c).delta.value)
    ensures !HasNullContent(FirstChoice(c)) ==>
              DataPayload(c) == WrappedDelta(FirstChoice(c).delta, c.id, FirstChoice(c).index)
    ensures !HasNullContent(FirstChoice(c)) ==>
              && Path(PayloadJson(DataPayload(c)), ["delta"]) == Some(OptionalDeltaJson(FirstChoice(c).delta))
              && Path(PayloadJson(DataPayload(c)), ["id"]) == Some(Str(c.id))
  {
    if !HasNullContent(FirstChoice(c)) {
      var j := PayloadJson(DataPayload(c));
      assert Field(j, "delta") == Some(OptionalDeltaJson(FirstChoice(c).delta));
      assert Field(j, "id") == Some(Str(c.id)) by {
        assert "delta" != "id" by { assert "delta"[0] != "id"[0]; }
        FieldInSecond(j.fields, "id");
      }
      PathStep(j, ["delta"]);
      PathStep(j, ["id"]);
    }
  }

  /** The JSON value written on a frame's data line. */
  function PayloadJson(p: Payload): Json
  {
    match p
    case TextData(text) => Str(text)
    case ToolCallsData(calls) => CallsJson(calls)
    case StopData(reason) => Str(reason)
    case DeltaData(delta) => DeltaJson(delta)
    case WrappedDelta(delta, chunkId, index) =>
      Obj([("delta", OptionalDeltaJson(delta)), ("id", Str(chunkId))] + OptionalField("index", OptionalNum(index)))
    case ChunkError(chunk) => ErrorPayload(chunk)
  }

  /** An `error` frame's record reads, property by property, as a
      `StreamChunkError` with the fixed message, the runtime error it caught
      and the offending chunk. */
  lemma ErrorRecord(errorMessage: string, chunk: Json)
    ensures Path(StreamChunkError(errorMessage, chunk), ["type"]) == Some(Str("StreamChunkError"))
    ensures Path(StreamChunkError(errorMessage, chunk), ["body", "message"]) == Some(Str(ChunkErrorMessage))
    ensures Path(StreamChunkError(errorMessage, chunk), ["body", "context", "error", "name"]) == Some(Str("TypeError"))
    ensures Path(StreamChunkError(errorMessage, chunk), ["body", "context", "error", "message"]) == Some(Str(errorMessage))
    ensures Path(StreamChunkError(errorMessage, chunk), ["body", "context", "chunk"]) == Some(chunk)
  {
    var r := StreamChunkError(errorMessage, chunk);
    var body := r.fields[0].1;
    var context := body.fields[1].1;
    var error := context.fields[0].1;
    assert Field(r, "type") == Some(Str("StreamChunkError")) by {
      assert "body" != "type" by { assert "body"[0] != "type"[0]; }
      FieldInSecond(r.fields, "type");
    }
    assert Field(r, "body") == Some(body);
    assert Field(body, "message") == Some(Str(ChunkErrorMessage));
    assert Field(body, "context") == Some(context) by {
      assert "message" != "context" by { assert "message"[0] != "context"[0]; }
      FieldInSecond(body.fields, "context");
    }
    assert Field(context, "error") == Some(error);
    assert Field(context, "chunk") == Some(chunk) by {
      assert "error" != "chunk" by { assert "error"[0] != "chunk"[0]; }
      FieldInSecond(context.fields, "chunk");
    }
    assert Field(error, "message") == Some(Str(errorMessage));
    assert Field(error, "name") == Some(Str("TypeError")) by {
      assert "message" != "name" by { assert "message"[0] != "name"[0]; }
      FieldInSecond(error.fields, "name");
    }
    PathStep(r, ["type"]);
    PathStep(r, ["body", "message"]);
    PathStep(body, ["message"]);
    PathStep(r, ["body", "context", "error", "name"]);
    PathStep(body, ["context", "error", "name"]);
    PathStep(context, ["error", "name"]);
    PathStep(error, ["name"]);
    PathStep(r, ["body", "context", "error", "message"]);
    PathStep(body, ["context", "error", "message"]);
    PathStep(context, ["error", "message"]);
    PathStep(error, ["message"]);
    PathStep(r, ["body", "context", "chunk"]);
    PathStep(body, ["context", "chunk"]);
    PathStep(context, ["chunk"]);
  }

  /** The frame of one chunk, and the id memory after it. */
  function Step(c: Chunk, mem: IdMemory): (r: (Frame, IdMemory))
    ensures r.0.id == c.id && r.0.event == Classify(c)
    ensures r.0.event == TextEvent ==> r.0.data == TextData(TextOf(c))
    ensures r.0.event == StopEvent ==> r.0.data == StopData(FirstChoice(c).finishReason.value)
    ensures r.1 == Fold(mem, ChunkHistory(c))
  {
    match Classify(c)
    case ErrorEvent => (Frame(c.id, ErrorEvent, ChunkError(c)), mem)
    case TextEvent => (Frame(c.id, TextEvent, TextData(TextOf(c))), mem)
    case ToolCallsEvent =>
      NormalizeMemory(ToolCallsOf(c), mem, |ToolCallsOf(c)|);
      assert CallHistory(ToolCallsOf(c))[..|ToolCallsOf(c)|] == CallHistory(ToolCallsOf(c));
      var (calls, mem') := Normalize(ToolCallsOf(c), mem);
      (Frame(c.id, ToolCallsEvent, ToolCallsData(calls)), mem')
    case StopEvent => (Frame(c.id, StopEvent, StopData(FirstChoice(c).finishReason.value)), mem)
    case DataEvent => (Frame(c.id, DataEvent, DataPayload(c)), mem)
  }

  /** The frames of the first n chunks and the id memory after them. */
  function RunUpTo(chunks: seq<Chunk>, n: nat): (r: (seq<Frame>, IdMemory))
    requires n <= |chunks|
    ensures |r.0| == n
    decreases n
  {
    if n == 0 then ([], map[])
    else
      var prior := RunUpTo(chunks, n - 1);
      var (f, mem) := Step(chunks[n - 1], prior.1);
      (prior.0 + [f], mem)
  }

  /** The frames of a whole stream and the id memory at its end. */
  function Run(chunks: seq<Chunk>): (r: (seq<Frame>, IdMemory))
    ensures |r.0| == |chunks|
  {
    RunUpTo(chunks, |chunks|)
  }

  /** The tool-call fragments of the first n chunks, in stream order. */
  function StreamHistory(chunks: seq<Chunk>, n: nat): History
    requires n <= |chunks|
    decreases n
  {
    if n == 0 then [] else StreamHistory(chunks, n - 1) + ChunkHistory(chunks[n - 1])
  }

  /** The three pieces a frame is written as. */
  function RenderFrame(f: Frame): seq<string>
  {
    ["id: " + f.id + "\n", "event: " + EventName(f.event) + "\n", "data: " + Encode(PayloadJson(f.data)) + "\n\n"]
  }

  /** Each piece of a frame can be read back: it starts with its field name,
      ends with the line break (two for the data line) and holds the frame's
      id, event name or payload JSON in between. */
  lemma FrameLines(f: Frame)
    ensures |RenderFrame(f)| == 3
    ensures var line := RenderFrame(f)[0];
      |line| >= 5 && line[..4] == "id: " && line[4..|line| - 1] == f.id && line[|line| - 1] == '\n'
    ensures var line := RenderFrame(f)[1];
      |line| >= 8 && line[..7] == "event: " && line[7..|line| - 1] == EventName(f.event) && line[|line| - 1] == '\n'
    ensures var line := RenderFrame(f)[2];
      |line| >= 8 && line[..6] == "data: " && line[6..|line| - 2] == Encode(PayloadJson(f.data)) && line[|line| - 2..] == "\n\n"
  {
    var r := RenderFrame(f);
    assert r[0][..4] == "id: " && r[0][4..|r[0]| - 1] == f.id;
    assert r[1][..7] == "event: " && r[1][7..|r[1]| - 1] == EventName(f.event);
    assert r[2][..6] == "data: " && r[2][6..|r[2]| - 2] == Encode(PayloadJson(f.data));
  }

  function Render(frames: seq<Frame>): seq<string>
    decreases |frames|
  {
    if frames == [] then [] else Render(frames[..|frames| - 1]) + RenderFrame(frames[|frames| - 1])
  }

  // ---------------------------------------------------------------------
  // Observer hooks

  /** What the observer hooks received: how often `onStart`, `onToolCall` and
      `onCompletion` fired, and the arguments of `onText` and `onToken`. */
  datatype Hooks = Hooks(starts: nat, texts: seq<string>, tokens: seq<string>, toolCalls: nat, completions: nat)

  /** The contents of the text chunks among the first n, in order. */
  function TextContents(chunks: seq<Chunk>, n: nat): seq<string>
    requires n <= |chunks|
    decreases n
  {
    if n == 0 then []
    else TextContents(chunks, n - 1) + if Classify(chunks[n - 1]) == TextEvent then [TextOf(chunks[n - 1])] else []
  }

  /** How many of the first n chunks are tool-call chunks. */
  function CountToolCallChunks(chunks: seq<Chunk>, n: nat): nat
    requires n <= |chunks|
    decreases n
  {
    if n == 0 then 0
    else CountToolCallChunks(chunks, n - 1) + if Classify(chunks[n - 1]) == ToolCallsEvent then 1 else 0
  }

  lemma RenderSnoc(frames: seq<Frame>, f: Frame)
    ensures Render(frames + [f]) == Render(frames) + RenderFrame(f)
  {
    assert (frames + [f])[..|frames|] == frames;
  }

  /** The hook calls one frame causes: `onText` with the data line's JSON text
      and `onToken` with what JSON.parse makes of it for a text frame,
      `onToolCall` for a tool-call frame, nothing for the other kinds. */
  method Observe(hooks: Hooks, frame: Frame) returns (next: Hooks)
    requires frame.event == TextEvent ==> frame.data.TextData?
    ensures next.starts == hooks.starts && next.completions == hooks.completions
    ensures next.texts == hooks.texts + (if frame.event == TextEvent then [Encode(PayloadJson(frame.data))] else [])
    ensures next.tokens == hooks.tokens + (if frame.event == TextEvent then [frame.data.text] else [])
    ensures next.toolCalls == hooks.toolCalls + (if frame.event == ToolCallsEvent then 1 else 0)
  {
    next := hooks;
    if frame.event == TextEvent {
      var data := Encode(PayloadJson(frame.data));
      DecodeQuote(frame.data.text);
      var token := DecodeString(data);
      next := next.(texts := next.texts + [data], tokens := next.tokens + [token.value]);
    } else if frame.event == ToolCallsEvent {
      next := next.(toolCalls := next.toolCalls + 1);
    }
  }

  /** What the stream loop has written after the first i chunks: their
      rendered frames, and the id memory they leave. */
  ghost predicate OutputState(chunks: seq<Chunk>, i: nat, output: seq<string>, memory: IdMemory)
  {
    && i <= |chunks|
    && output == Render(RunUpTo(chunks, i).0)
    && memory == RunUpTo(chunks, i).1
  }

  /** The hook calls after the first i chunks. */
  ghost predicate HookState(chunks: seq<Chunk>, i: nat, hooks: Hooks)
  {
    && i <= |chunks|
    && hooks.starts == 1 && hooks.completions == 0
    && hooks.tokens == TextContents(chunks, i)
    && |hooks.texts| == |hooks.tokens|
    && (forall k :: 0 <= k < |hooks.texts| ==> hooks.texts[k] == Encode(Str(hooks.tokens[k])))
    && hooks.toolCalls == CountToolCallChunks(chunks, i)
  }

  /** One more chunk: its frame is rendered after the others, and the memory
      moves on to the one its frame was built with. */
  lemma OutputAdvance(chunks: seq<Chunk>, i: nat, output: seq<string>, memory: IdMemory)
    requires i < |chunks| && OutputState(chunks, i, output, memory)
    ensures OutputState(chunks, i + 1, output + RenderFrame(Step(chunks[i], memory).0), Step(chunks[i], memory).1)
  {
    RenderSnoc(RunUpTo(chunks, i).0, Step(chunks[i], memory).0);
  }

  /** One more chunk: its hook calls are recorded after the others. */
  lemma HookAdvance(chunks: seq<Chunk>, i: nat, hooks: Hooks, frame: Frame, next: Hooks)
    requires i < |chunks| && HookState(chunks, i, hooks)
    requires frame.event == Classify(chunks[i])
    requires frame.event == TextEvent ==> frame.data == TextData(TextOf(chunks[i]))
    requires next.starts == hooks.starts && next.completions == hooks.completions
    requires next.texts == hooks.texts + (if frame.event == TextEvent then [Encode(PayloadJson(frame.data))] else [])
    requires next.tokens == hooks.tokens + (if frame.event == TextEvent then [frame.data.text] else [])
    requires next.toolCalls == hooks.toolCalls + (if frame.event == ToolCallsEvent then 1 else 0)
    ensures HookState(chunks, i + 1, next)
  {
  }

  /** The stream loop: one frame per chunk in arrival order, the tool-call id
      memory carried from chunk to chunk, and the hooks fired on the way.
      `onText` receives the data line's JSON text and `onToken` what JSON.parse
      makes of it. */
  method OpenAIStream(chunks: seq<Chunk>) returns (output: seq<string>, hooks: Hooks)
    ensures output == Render(Run(chunks).0)
    ensures hooks.starts == 1 && hooks.completions == 1
    ensures hooks.tokens == TextContents(chunks, |chunks|)
    ensures |hooks.texts| == |hooks.tokens|
    ensures forall k :: 0 <= k < |hooks.texts| ==> hooks.texts[k] == Encode(Str(hooks.tokens[k]))
    ensures hooks.toolCalls == CountToolCallChunks(chunks, |chunks|)
  {
    output := [];
    hooks := Hooks(1, [], [], 0, 0);
    var memory: IdMemory := map[];
    var i := 0;
    while i < |chunks|
      invariant OutputState(chunks, i, output, memory)
      invariant HookState(chunks, i, hooks)
    {
      var step := Step(chunks[i], memory);
      var frame := step.0;
      var next := Observe(hooks, frame);
      OutputAdvance(chunks, i, output, memory);
      HookAdvance(chunks, i, hooks, frame, next);
      output := output + RenderFrame(frame);
      hooks := next;
      memory := step.1;
      i := i + 1;
    }
    hooks := hooks.(completions := 1);
  }

  // ---------------------------------------------------------------------
  // Properties of the stream

  // Proof scaffolding for `RunMemory`. `Flatten(Histories(chunks), n)` is the
  // same history as `StreamHistory(chunks, n)` (see `StreamHistoryFlatten`),
  // written over plain histories so that the fold argument in
  // `MemoryAfterFold` never has to look at how chunks are classified.

  /** The fragments each chunk contributes, chunk by chunk. */
  function Histories(chunks: seq<Chunk>): seq<History>
  {
    seq(|chunks|, i requires 0 <= i < |chunks| => ChunkHistory(chunks[i]))
  }

  /** The first n contributions, laid end to end. */
  function Flatten(hs: seq<History>, n: nat): History
    requires n <= |hs|
    decreases n
  {
    if n == 0 then [] else Flatten(hs, n - 1) + hs[n - 1]
  }

  /** The id memory after taking in the first n contributions one at a time. */
  function MemoryAfter(hs: seq<History>, n: nat): IdMemory
    requires n <= |hs|
    decreases n
  {
    if n == 0 then map[] else Fold(MemoryAfter(hs, n - 1), hs[n - 1])
  }

  lemma {:induction false} MemoryAfterFold(hs: seq<History>, n: nat)
    requires n <= |hs|
    ensures MemoryAfter(hs, n) == Fold(map[], Flatten(hs, n))
    decreases n
  {
    if n > 0 {
      MemoryAfterFold(hs, n - 1);
      FoldAppend(map[], Flatten(hs, n - 1), hs[n - 1]);
    }
  }

  lemma {:induction false} StreamHistoryFlatten(chunks: seq<Chunk>, n: nat)
    requires n <= |chunks|
    ensures StreamHistory(chunks, n) == Flatten(Histories(chunks), n)
    decreases n
  {
    if n > 0 {
      StreamHistoryFlatten(chunks, n - 1);
    }
  }

  lemma {:induction false} RunMemoryAfter(chunks: seq<Chunk>, n: nat)
    requires n <= |chunks|
    ensures RunUpTo(chunks, n).1 == MemoryAfter(Histories(chunks), n)
    decreases n
  {
    if n > 0 {
      RunMemoryAfter(chunks, n - 1);
      RunMemoryStep(chunks, n);
    }
  }

  lemma RunMemoryStep(chunks: seq<Chunk>, n: nat)
    requires 0 < n <= |chunks|
    ensures RunUpTo(chunks, n).1 == Fold(RunUpTo(chunks, n - 1).1, Histories(chunks)[n - 1])
  {
  }

  /** The memory after n chunks has seen every tool-call fragment among them. */
  lemma RunMemory(chunks: seq<Chunk>, n: nat)
    requires n <= |chunks|
    ensures RunUpTo(chunks, n).1 == Fold(map[], StreamHistory(chunks, n))
  {
    RunMemoryAfter(chunks, n);
    MemoryAfterFold(Histories(chunks), n);
    StreamHistoryFlatten(chunks, n);
  }

  /** A frame, once produced, is not changed by the chunks after it. */
  lemma {:induction false} RunStable(chunks: seq<Chunk>, k: nat, n: nat)
    requires k < n <= |chunks|
    ensures RunUpTo(chunks, n).0[k] == RunUpTo(chunks, k + 1).0[k]
    decreases n
  {
    if n > k + 1 {
      RunStable(chunks, k, n - 1);
      RunFrameKept(chunks, k, n);
    }
  }

  lemma RunFrameKept(chunks: seq<Chunk>, k: nat, n: nat)
    requires k + 1 < n <= |chunks|
    requires RunUpTo(chunks, n - 1).0[k] == RunUpTo(chunks, k + 1).0[k]
    ensures RunUpTo(chunks, n).0[k] == RunUpTo(chunks, k + 1).0[k]
  {
    assert RunUpTo(chunks, n).0[k] == RunUpTo(chunks, n - 1).0[k];
  }

  /** Frame j of a stream is the frame of chunk j built with the memory of
      chunks 0..j-1. */
  lemma RunAt(chunks: seq<Chunk>, j: nat)
    requires j < |chunks|
    ensures Run(chunks).0[j] == Step(chunks[j], Fold(map[], StreamHistory(chunks, j))).0
  {
    RunStable(chunks, j, |chunks|);
    RunMemory(chunks, j);
  }

  /** Two streams that agree on their first n chunks agree on their first n frames. */
  lemma {:induction false} RunSame(a: seq<Chunk>, b: seq<Chunk>, n: nat)
    requires n <= |a| && n <= |b|
    requires forall k :: 0 <= k < n ==> a[k] == b[k]
    ensures RunUpTo(a, n) == RunUpTo(b, n)
    decreases n
  {
    if n > 0 {
      RunSame(a, b, n - 1);
    }
  }

  /** Frames already produced never change when more chunks arrive: the frames
      of a stream are the first frames of any continuation of it. */
  lemma RunPrefix(chunks: seq<Chunk>, more: seq<Chunk>)
    ensures Run(chunks).0 == Run(chunks + more).0[..|chunks|]
  {
    var all := chunks + more;
    RunSame(chunks, all, |chunks|);
    forall k | 0 <= k < |chunks|
      ensures Run(all).0[k] == RunUpTo(all, |chunks|).0[k]
    {
      RunStable(all, k, |all|);
      RunStable(all, k, |chunks|);
    }
  }

  /** Frame j carries chunk j's id and kind; its payload is the text, the
      finish reason, the error record or the data payload of that chunk alone. */
  lemma FrameOfChunk(chunks: seq<Chunk>, j: nat)
    requires j < |chunks|
    ensures Run(chunks).0[j].id == chunks[j].id
    ensures Run(chunks).0[j].event == Classify(chunks[j])
    ensures Classify(chunks[j]) == TextEvent ==> PayloadJson(Run(chunks).0[j].data) == Str(TextOf(chunks[j]))
    ensures Classify(chunks[j]) == StopEvent ==> PayloadJson(Run(chunks).0[j].data) == Str(FirstChoice(chunks[j]).finishReason.value)
    ensures Classify(chunks[j]) == ErrorEvent ==> PayloadJson(Run(chunks).0[j].data) == ErrorPayload(chunks[j])
    ensures Classify(chunks[j]) == DataEvent ==> Run(chunks).0[j].data == DataPayload(chunks[j])
  {
    RunAt(chunks, j);
    StepPayload(chunks[j], Fold(map[], StreamHistory(chunks, j)));
  }

  /** The payload of a chunk's frame, whatever the memory it is built with,
      except for tool calls. */
  lemma StepPayload(c: Chunk, mem: IdMemory)
    ensures Classify(c) == TextEvent ==> PayloadJson(Step(c, mem).0.data) == Str(TextOf(c))
    ensures Classify(c) == StopEvent ==> PayloadJson(Step(c, mem).0.data) == Str(FirstChoice(c).finishReason.value)
    ensures Classify(c) == ErrorEvent ==> PayloadJson(Step(c, mem).0.data) == ErrorPayload(c)
    ensures Classify(c) == DataEvent ==> Step(c, mem).0.data == DataPayload(c)
  {
  }

  lemma {:induction false} RenderLength(frames: seq<Frame>)
    ensures |Render(frames)| == 3 * |frames|
    decreases |frames|
  {
    if frames != [] {
      RenderLength(frames[..|frames| - 1]);
    }
  }

  /** Output already written never changes when more frames follow. */
  lemma {:induction false} RenderPrefix(frames: seq<Frame>, n: nat)
    requires n <= |frames|
    ensures |Render(frames)| == 3 * |frames|
    ensures Render(frames[..n]) == Render(frames)[..3 * n]
    decreases |frames|
  {
    RenderLength(frames);
    if n == |frames| {
      assert frames[..n] == frames;
    } else {
      var m := |frames| - 1;
      RenderLength(frames[..m]);
      assert Render(frames)[..3 * m] == Render(frames[..m]);
      RenderPrefix(frames[..m], n);
      assert frames[..m][..n] == frames[..n];
    }
  }

  /** Frame k is written as pieces 3k, 3k+1 and 3k+2. */
  lemma RenderAt(frames: seq<Frame>, k: nat)
    requires k < |frames|
    ensures |Render(frames)| == 3 * |frames|
    ensures Render(frames)[3 * k] == "id: " + frames[k].id + "\n"
    ensures Render(frames)[3 * k + 1] == "event: " + EventName(frames[k].event) + "\n"
    ensures Render(frames)[3 * k + 2] == "data: " + Encode(PayloadJson(frames[k].data)) + "\n\n"
  {
    var upto := frames[..k + 1];
    RenderPrefix(frames, k + 1);
    assert upto[..k] == frames[..k] && upto[k] == frames[k];
    RenderLength(frames[..k]);
    assert Render(upto) == Render(frames[..k]) + RenderFrame(frames[k]);
  }

  /** The output is three pieces per chunk, in chunk order: the chunk's id line,
      its event line and its data line. An empty stream writes nothing. */
  lemma OutputLayout(chunks: seq<Chunk>)
    ensures |Render(Run(chunks).0)| == 3 * |chunks|
    ensures forall j :: 0 <= j < |chunks| ==>
              && Render(Run(chunks).0)[3 * j] == "id: " + chunks[j].id + "\n"
              && Render(Run(chunks).0)[3 * j + 1] == "event: " + EventName(Classify(chunks[j])) + "\n"
              && Render(Run(chunks).0)[3 * j + 2] == "data: " + Encode(PayloadJson(Run(chunks).0[j].data)) + "\n\n"
  {
    RenderLength(Run(chunks).0);
    forall j | 0 <= j < |chunks|
      ensures Render(Run(chunks).0)[3 * j] == "id: " + chunks[j].id + "\n"
      ensures Render(Run(chunks).0)[3 * j + 1] == "event: " + EventName(Classify(chunks[j])) + "\n"
      ensures Render(Run(chunks).0)[3 * j + 2] == "data: " + Encode(PayloadJson(Run(chunks).0[j].data)) + "\n\n"
    {
      RunAt(chunks, j);
      RenderAt(Run(chunks).0, j);
    }
  }

  /** The memory a chunk's fragments are normalised with: everything the
      chunks before it taught. A name for `Fold(map[], StreamHistory(..))`
      that keeps the statements below readable. */
  ghost function MemoryBefore(chunks: seq<Chunk>, j: nat): IdMemory
    requires j <= |chunks|
  {
    Fold(map[], StreamHistory(chunks, j))
  }

  /** The normalised fragments a tool-call chunk is sent with. */
  ghost function EmittedCalls(chunks: seq<Chunk>, j: nat): seq<NormalizedCall>
    requires j < |chunks| && Classify(chunks[j]) == ToolCallsEvent
  {
    Normalize(ToolCallsOf(chunks[j]), MemoryBefore(chunks, j)).0
  }

  /** A tool-call chunk gives one `tool_calls` frame holding every fragment
      rebuilt as `{function, id, index, type}`: the function unchanged, the index
      given or else the array position, the type given or else "function", the
      id given or else the latest id an earlier fragment with the same index
      carried in this stream. */
  lemma ToolCallsFrame(chunks: seq<Chunk>, j: nat)
    requires j < |chunks| && Classify(chunks[j]) == ToolCallsEvent
    ensures Run(chunks).0[j] == Frame(chunks[j].id, ToolCallsEvent, ToolCallsData(EmittedCalls(chunks, j)))
    ensures PayloadJson(Run(chunks).0[j].data) == CallsJson(EmittedCalls(chunks, j))
    ensures |EmittedCalls(chunks, j)| == |ToolCallsOf(chunks[j])|
    ensures forall k :: 0 <= k < |ToolCallsOf(chunks[j])| ==>
              var call := ToolCallsOf(chunks[j])[k];
              var out := EmittedCalls(chunks, j)[k];
              && out.call == call.call
              && out.index == (if call.index.Some? then call.index.value else k)
              && out.kind == (if Truthy(call.kind) then call.kind.value else "function")
              && (Truthy(call.id) ==> out.id == call.id)
              && (!Truthy(call.id) ==>
                    IsLatestId(StreamHistory(chunks, j) + CallHistory(ToolCallsOf(chunks[j]))[..k], out.index, out.id))
  {
    RunAt(chunks, j);
    var calls := ToolCallsOf(chunks[j]);
    var before := StreamHistory(chunks, j);
    var mem := MemoryBefore(chunks, j);
    forall k | 0 <= k < |calls|
      ensures EmittedCalls(chunks, j)[k] == NormalizeCall(calls[k], k, Fold(mem, CallHistory(calls)[..k]))
    {
      NormalizeAt(calls, mem, k);
    }
    forall k | 0 <= k < |calls| && !Truthy(calls[k].id)
      ensures IsLatestId(before + CallHistory(calls)[..k], EmittedCalls(chunks, j)[k].index, EmittedCalls(chunks, j)[k].id)
    {
      FoldAppend(map[], before, CallHistory(calls)[..k]);
      LatestId(before + CallHistory(calls)[..k], CallIndex(calls[k], k));
    }
  }
}
