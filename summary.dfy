/** The occurrence summary built by FormatOccurrenceData
    (internal/client/client.go:282-382): a declarative description of every
    key of the summary, and the imperative extraction that fills the summary
    map one guard at a time, proved to build it. What the summary promises is
    stated in SummaryProperties. */
module OccurrenceSummary {
  import opened Wrappers
  import opened JsonValue

  /** Every key the summary can hold. */
  const SummaryKeys: set<string> :=
    {"environment", "level", "message", "exception_class", "exception_message",
     "backtrace", "server", "request"}

  /** The keys copied from the occurrence's `server` object. */
  const ServerKeys: set<string> := {"host", "root", "pid"}

  /** The keys copied from the occurrence's `request` object. */
  const RequestKeys: set<string> := {"url", "method", "user_ip", "params", "headers"}

  /** The keys a trace writes. */
  const TraceKeys: set<string> := {"exception_class", "exception_message", "backtrace"}

  // ---------------------------------------------------------------------
  // Paths into the occurrence payload

  /** `data.body`, when it is an object. */
  ghost function BodyOf(data: map<string, Json>): Option<map<string, Json>>
  {
    AsObject(Get(data, "body"))
  }

  /** `body.message.body`, when `message` is an object holding the key
      (whatever the type of its value). */
  ghost function MessageIn(body: map<string, Json>): Option<Json>
  {
    var msg := AsObject(Get(body, "message"));
    if msg.None? then None else Get(msg.value, "body")
  }

  /** `body.trace`, when it is an object. */
  ghost function TraceIn(body: map<string, Json>): Option<map<string, Json>>
  {
    AsObject(Get(body, "trace"))
  }

  /** `body.trace_chain[0]`, when the chain is a non-empty array whose first
      element is an object. */
  ghost function ChainHeadIn(body: map<string, Json>): Option<map<string, Json>>
  {
    var chain := AsArray(Get(body, "trace_chain"));
    if chain.None? || |chain.value| == 0 then None else AsObject(Some(chain.value[0]))
  }

  /** `data.body.message.body`. */
  ghost function MessageOf(data: map<string, Json>): Option<Json>
  {
    var body := BodyOf(data);
    if body.None? then None else MessageIn(body.value)
  }

  /** `data.body.trace`. */
  ghost function TraceOf(data: map<string, Json>): Option<map<string, Json>>
  {
    var body := BodyOf(data);
    if body.None? then None else TraceIn(body.value)
  }

  /** `data.body.trace_chain[0]`. */
  ghost function ChainHeadOf(data: map<string, Json>): Option<map<string, Json>>
  {
    var body := BodyOf(data);
    if body.None? then None else ChainHeadIn(body.value)
  }

  /** The `exception` object of a trace. */
  ghost function ExceptionIn(trace: Option<map<string, Json>>): Option<map<string, Json>>
  {
    if trace.None? then None else AsObject(Get(trace.value, "exception"))
  }

  /** The `frames` array of a trace. */
  ghost function FramesIn(trace: Option<map<string, Json>>): Option<seq<Json>>
  {
    if trace.None? then None else AsArray(Get(trace.value, "frames"))
  }

  /** The exception object the summary reports: the head of the trace chain
      wins when it has one, otherwise that of `trace`. */
  ghost function ActiveException(data: map<string, Json>): Option<map<string, Json>>
  {
    FirstOf(ExceptionIn(ChainHeadOf(data)), ExceptionIn(TraceOf(data)))
  }

  /** The frames the backtrace is built from, chosen the same way. */
  ghost function ActiveFrames(data: map<string, Json>): Option<seq<Json>>
  {
    FirstOf(FramesIn(ChainHeadOf(data)), FramesIn(TraceOf(data)))
  }

  /** The payload paths below `body` are those of the `body` object, and
      are all absent when `body` is not an object. */
  lemma PathsThroughBody(data: map<string, Json>)
    ensures BodyOf(data).None? ==>
      MessageOf(data).None? && ActiveException(data).None? && ActiveFrames(data).None?
    ensures BodyOf(data).Some? ==>
      var body := BodyOf(data).value;
      && MessageOf(data) == MessageIn(body)
      && ActiveException(data) == FirstOf(ExceptionIn(ChainHeadIn(body)), ExceptionIn(TraceIn(body)))
      && ActiveFrames(data) == FirstOf(FramesIn(ChainHeadIn(body)), FramesIn(TraceIn(body)))
  {
  }

  /** The summary value for field `name` of an exception object: nil when
      the object lacks the field. */
  ghost function ExceptionField(exc: Option<map<string, Json>>, name: string): Option<Json>
  {
    if exc.None? then None else Some(Lookup(exc.value, name))
  }

  // ---------------------------------------------------------------------
  // Backtrace

  /** The frames that are objects, in their original order; every other
      frame is skipped. */
  ghost function ObjectFrames(frames: seq<Json>): (r: seq<map<string, Json>>)
    ensures |r| <= |frames|
  {
    if frames == [] then []
    else
      var last := frames[|frames| - 1];
      ObjectFrames(frames[..|frames| - 1]) + (if last.Obj? then [last.fields] else [])
  }

  /** `fmt.Sprintf("%v:%v in %v", filename, lineno, method)`, where `render`
      stands for Go's `%v` and a missing field renders as nil does. */
  function FrameLine(frame: map<string, Json>, render: Json -> string): string
  {
    render(Lookup(frame, "filename")) + ":" + render(Lookup(frame, "lineno"))
      + " in " + render(Lookup(frame, "method"))
  }

  /** One line per object frame, in order. */
  ghost function Backtrace(frames: seq<Json>, render: Json -> string): seq<string>
  {
    var objs := ObjectFrames(frames);
    seq(|objs|, k requires 0 <= k < |objs| => FrameLine(objs[k], render))
  }

  /** The summary value for `backtrace` built from an optional frames array. */
  ghost function BacktraceField(frames: Option<seq<Json>>, render: Json -> string): Option<Json>
  {
    if frames.None? then None else Some(StrArray(Backtrace(frames.value, render)))
  }

  // ---------------------------------------------------------------------
  // Server and request sections

  /** The entries of `src` whose keys are in `keys`. */
  ghost function Projected(src: map<string, Json>, keys: set<string>): map<string, Json>
  {
    map k | k in keys && k in src :: src[k]
  }

  /** The nested section `name` of the summary: present only when `data.name`
      is an object holding at least one of `keys`. */
  ghost function Section(data: map<string, Json>, name: string, keys: set<string>): Option<Json>
  {
    var src := AsObject(Get(data, name));
    if src.None? then None
    else
      var p := Projected(src.value, keys);
      if |p| > 0 then Some(Obj(p)) else None
  }

  // ---------------------------------------------------------------------
  // The summary, key by key

  /** The value the summary holds under `key`, or None when it lacks it. */
  ghost function Entry(data: map<string, Json>, key: string, render: Json -> string): Option<Json>
  {
    if key == "environment" then Get(data, "environment")
    else if key == "level" then Get(data, "level")
    else if key == "message" then MessageOf(data)
    else if key == "exception_class" then ExceptionField(ActiveException(data), "class")
    else if key == "exception_message" then ExceptionField(ActiveException(data), "message")
    else if key == "backtrace" then BacktraceField(ActiveFrames(data), render)
    else if key == "server" then Section(data, "server", ServerKeys)
    else if key == "request" then Section(data, "request", RequestKeys)
    else None
  }

  /** Entry, unfolded at each summary key. */
  lemma EntryAtKeys(data: map<string, Json>, render: Json -> string)
    ensures Entry(data, "environment", render) == Get(data, "environment")
    ensures Entry(data, "level", render) == Get(data, "level")
    ensures Entry(data, "message", render) == MessageOf(data)
    ensures Entry(data, "exception_class", render) == ExceptionField(ActiveException(data), "class")
    ensures Entry(data, "exception_message", render) == ExceptionField(ActiveException(data), "message")
    ensures Entry(data, "backtrace", render) == BacktraceField(ActiveFrames(data), render)
    ensures Entry(data, "server", render) == Section(data, "server", ServerKeys)
    ensures Entry(data, "request", render) == Section(data, "request", RequestKeys)
  {
  }

  /** The summary of an occurrence payload. */
  ghost function Summary(data: map<string, Json>, render: Json -> string): (r: map<string, Json>)
    ensures r.Keys <= SummaryKeys
  {
    map k | k in SummaryKeys && Entry(data, k, render).Some? :: Entry(data, k, render).value
  }

  /** `m` with the keys a trace writes set from `exc` and `frames`, where
      they are present. */
  ghost function WithTrace(m: map<string, Json>, exc: Option<map<string, Json>>, frames: Option<seq<Json>>,
                     render: Json -> string): map<string, Json>
  {
    var m1 := Put(m, "exception_class", ExceptionField(exc, "class"));
    var m2 := Put(m1, "exception_message", ExceptionField(exc, "message"));
    Put(m2, "backtrace", BacktraceField(frames, render))
  }

  /** Reading a key after a Put. */
  lemma GetAfterPut(m: map<string, Json>, k: string, v: Option<Json>, j: string)
    ensures Get(Put(m, k, v), j) == if j == k then FirstOf(v, Get(m, j)) else Get(m, j)
  {
  }

  /** Two maps that agree on every read are equal. */
  lemma EqualByGet(a: map<string, Json>, b: map<string, Json>)
    requires forall j :: Get(a, j) == Get(b, j)
    ensures a == b
  {
    assert a.Keys == b.Keys by {
      forall j
        ensures j in a <==> j in b
      {
        assert Get(a, j) == Get(b, j);
      }
    }
    forall j | j in a
      ensures a[j] == b[j]
    {
      assert Get(a, j) == Get(b, j);
    }
  }

  /** Writing the three trace keys twice, the second write winning where it
      has a value. */
  lemma PutTraceKeysTwice(m: map<string, Json>, a1: Option<Json>, a2: Option<Json>, a3: Option<Json>,
                          b1: Option<Json>, b2: Option<Json>, b3: Option<Json>)
    ensures Put(Put(Put(Put(Put(Put(m, "exception_class", a1), "exception_message", a2), "backtrace", a3),
                    "exception_class", b1), "exception_message", b2), "backtrace", b3)
      == Put(Put(Put(m, "exception_class", FirstOf(b1, a1)), "exception_message", FirstOf(b2, a2)),
             "backtrace", FirstOf(b3, a3))
  {
    var m1 := Put(m, "exception_class", a1);
    var m2 := Put(m1, "exception_message", a2);
    var m3 := Put(m2, "backtrace", a3);
    var m4 := Put(m3, "exception_class", b1);
    var m5 := Put(m4, "exception_message", b2);
    var m6 := Put(m5, "backtrace", b3);
    var n1 := Put(m, "exception_class", FirstOf(b1, a1));
    var n2 := Put(n1, "exception_message", FirstOf(b2, a2));
    var n3 := Put(n2, "backtrace", FirstOf(b3, a3));
    forall j
      ensures Get(m6, j) == Get(n3, j)
    {
      GetAfterPut(m, "exception_class", a1, j);
      GetAfterPut(m1, "exception_message", a2, j);
      GetAfterPut(m2, "backtrace", a3, j);
      GetAfterPut(m3, "exception_class", b1, j);
      GetAfterPut(m4, "exception_message", b2, j);
      GetAfterPut(m5, "backtrace", b3, j);
      GetAfterPut(m, "exception_class", FirstOf(b1, a1), j);
      GetAfterPut(n1, "exception_message", FirstOf(b2, a2), j);
      GetAfterPut(n2, "backtrace", FirstOf(b3, a3), j);
    }
    EqualByGet(m6, n3);
  }

  /** Applying a second trace over a first keeps, sub-object by sub-object,
      what the second one has and falls back to the first. */
  lemma WithTraceTwice(m: map<string, Json>, exc1: Option<map<string, Json>>, frames1: Option<seq<Json>>,
                       exc2: Option<map<string, Json>>, frames2: Option<seq<Json>>, render: Json -> string)
    ensures WithTrace(WithTrace(m, exc1, frames1, render), exc2, frames2, render)
      == WithTrace(m, FirstOf(exc2, exc1), FirstOf(frames2, frames1), render)
  {
    PutTraceKeysTwice(m, ExceptionField(exc1, "class"), ExceptionField(exc1, "message"),
                      BacktraceField(frames1, render), ExceptionField(exc2, "class"),
                      ExceptionField(exc2, "message"), BacktraceField(frames2, render));
  }

  /** The summary keys inserted in the order the source writes them,
      starting from an empty map. */
  ghost function InSourceOrder(data: map<string, Json>, render: Json -> string): map<string, Json>
  {
    var head := Put(Put(map[], "environment", Get(data, "environment")), "level", Get(data, "level"));
    var withBody := WithTrace(Put(head, "message", MessageOf(data)), ActiveException(data), ActiveFrames(data), render);
    Put(Put(withBody, "server", Section(data, "server", ServerKeys)), "request", Section(data, "request", RequestKeys))
  }

  /** Reading the map built by inserting eight optional values, one per
      summary key in source order, into an empty map. */
  lemma GetAfterSummaryPuts(v1: Option<Json>, v2: Option<Json>, v3: Option<Json>, v4: Option<Json>,
                            v5: Option<Json>, v6: Option<Json>, v7: Option<Json>, v8: Option<Json>, j: string)
    ensures Get(Put(Put(Put(Put(Put(Put(Put(Put(map[], "environment", v1), "level", v2), "message", v3),
                                        "exception_class", v4), "exception_message", v5), "backtrace", v6),
                        "server", v7), "request", v8), j)
      == if j == "environment" then v1
         else if j == "level" then v2
         else if j == "message" then v3
         else if j == "exception_class" then v4
         else if j == "exception_message" then v5
         else if j == "backtrace" then v6
         else if j == "server" then v7
         else if j == "request" then v8
         else None
  {
    var m1 := Put(map[], "environment", v1);
    var m2 := Put(m1, "level", v2);
    var m3 := Put(m2, "message", v3);
    var m4 := Put(m3, "exception_class", v4);
    var m5 := Put(m4, "exception_message", v5);
    var m6 := Put(m5, "backtrace", v6);
    var m7 := Put(m6, "server", v7);
    GetAfterPut(map[], "environment", v1, j);
    GetAfterPut(m1, "level", v2, j);
    GetAfterPut(m2, "message", v3, j);
    GetAfterPut(m3, "exception_class", v4, j);
    GetAfterPut(m4, "exception_message", v5, j);
    GetAfterPut(m5, "backtrace", v6, j);
    GetAfterPut(m6, "server", v7, j);
    GetAfterPut(m7, "request", v8, j);
  }

  /** Inserting the keys in source order builds the summary. */
  lemma SummaryInSourceOrder(data: map<string, Json>, render: Json -> string)
    ensures InSourceOrder(data, render) == Summary(data, render)
  {
    var r := InSourceOrder(data, render);
    var s := Summary(data, render);
    forall j
      ensures Get(r, j) == Get(s, j)
    {
      GetAfterSummaryPuts(Get(data, "environment"), Get(data, "level"), MessageOf(data),
                          ExceptionField(ActiveException(data), "class"),
                          ExceptionField(ActiveException(data), "message"),
                          BacktraceField(ActiveFrames(data), render),
                          Section(data, "server", ServerKeys), Section(data, "request", RequestKeys), j);
    }
    EqualByGet(r, s);
  }

  // ---------------------------------------------------------------------
  // The extraction, as the source performs it

  /** The loop over `frames` that appends one line per object frame. */
  method BuildBacktrace(frames: seq<Json>, render: Json -> string) returns (backtrace: seq<string>)
    ensures backtrace == Backtrace(frames, render)
  {
    backtrace := [];
    var i := 0;
    while i < |frames|
      invariant 0 <= i <= |frames|
      invariant backtrace == Backtrace(frames[..i], render)
    {
      var f := frames[i];
      assert frames[..i + 1][..i] == frames[..i];
      if f.Obj? {
        var frame := f.fields;
        backtrace := backtrace + [FrameLine(frame, render)];
      }
      i := i + 1;
    }
    assert frames[..i] == frames;
  }

  /** The block run for `trace` and again for `trace_chain[0]`: it writes
      both exception keys when `exception` is an object and `backtrace` when
      `frames` is an array, and leaves every other key as it was. */
  method ApplyTrace(result: map<string, Json>, trace: map<string, Json>, render: Json -> string)
    returns (updated: map<string, Json>)
    ensures updated == WithTrace(result, ExceptionIn(Some(trace)), FramesIn(Some(trace)), render)
  {
    updated := result;
    if "exception" in trace && trace["exception"].Obj? {
      var exc := trace["exception"].fields;
      updated := updated["exception_class" := Lookup(exc, "class")];
      updated := updated["exception_message" := Lookup(exc, "message")];
    }
    if "frames" in trace && trace["frames"].Arr? {
      var backtrace := BuildBacktrace(trace["frames"].elems, render);
      updated := updated["backtrace" := StrArray(backtrace)];
    }
  }

  /** The `serverInfo` map, filled key by key. */
  method CollectServerInfo(server: map<string, Json>) returns (info: map<string, Json>)
    ensures info == Projected(server, ServerKeys)
  {
    info := map[];
    if "host" in server {
      info := info["host" := server["host"]];
    }
    if "root" in server {
      info := info["root" := server["root"]];
    }
    if "pid" in server {
      info := info["pid" := server["pid"]];
    }
  }

  /** The `reqInfo` map, filled key by key. */
  method CollectRequestInfo(req: map<string, Json>) returns (info: map<string, Json>)
    ensures info == Projected(req, RequestKeys)
  {
    info := map[];
    if "url" in req {
      info := info["url" := req["url"]];
    }
    if "method" in req {
      info := info["method" := req["method"]];
    }
    if "user_ip" in req {
      info := info["user_ip" := req["user_ip"]];
    }
    if "params" in req {
      info := info["params" := req["params"]];
    }
    if "headers" in req {
      info := info["headers" := req["headers"]];
    }
  }

  /** The `message` guard of FormatOccurrenceData. */
  method ExtractMessage(result: map<string, Json>, body: map<string, Json>)
    returns (updated: map<string, Json>)
    ensures updated == Put(result, "message", MessageIn(body))
  {
    updated := result;
    if "message" in body && body["message"].Obj? {
      var msg := body["message"].fields;
      if "body" in msg {
        updated := updated["message" := msg["body"]];
      }
    }
  }

  /** The `body` block of FormatOccurrenceData, run when `body` is an
      object: `message`, then `trace`, then the head of `trace_chain`, which
      overwrites what `trace` wrote where it has something to write. */
  method ExtractBody(result: map<string, Json>, data: map<string, Json>, render: Json -> string)
    returns (updated: map<string, Json>)
    ensures updated
      == WithTrace(Put(result, "message", MessageOf(data)), ActiveException(data), ActiveFrames(data), render)
  {
    PathsThroughBody(data);
    updated := result;
    if "body" in data && data["body"].Obj? {
      var body := data["body"].fields;
      updated := ExtractMessage(updated, body);
      ghost var withMessage := updated;
      if "trace" in body && body["trace"].Obj? {
        assert TraceIn(body) == Some(body["trace"].fields);
        updated := ApplyTrace(updated, body["trace"].fields, render);
      } else {
        assert TraceIn(body) == None;
      }
      assert updated == WithTrace(withMessage, ExceptionIn(TraceIn(body)), FramesIn(TraceIn(body)), render);
      ghost var withTrace := updated;
      if "trace_chain" in body && body["trace_chain"].Arr? && |body["trace_chain"].elems| > 0 {
        var head := body["trace_chain"].elems[0];
        if head.Obj? {
          assert ChainHeadIn(body) == Some(head.fields);
          updated := ApplyTrace(updated, head.fields, render);
        } else {
          assert ChainHeadIn(body) == None;
        }
      } else {
        assert ChainHeadIn(body) == None;
      }
      assert updated == WithTrace(withTrace, ExceptionIn(ChainHeadIn(body)), FramesIn(ChainHeadIn(body)), render);
      WithTraceTwice(withMessage, ExceptionIn(TraceIn(body)), FramesIn(TraceIn(body)),
                     ExceptionIn(ChainHeadIn(body)), FramesIn(ChainHeadIn(body)), render);
    }
  }

  /** The `server` block of FormatOccurrenceData: `serverInfo` is added
      only when it is not empty. */
  method ExtractServer(result: map<string, Json>, data: map<string, Json>)
    returns (updated: map<string, Json>)
    ensures updated == Put(result, "server", Section(data, "server", ServerKeys))
  {
    updated := result;
    if "server" in data && data["server"].Obj? {
      var serverInfo := CollectServerInfo(data["server"].fields);
      if |serverInfo| > 0 {
        updated := updated["server" := Obj(serverInfo)];
      }
    }
  }

  /** The `request` block of FormatOccurrenceData: `reqInfo` is added only
      when it is not empty. */
  method ExtractRequest(result: map<string, Json>, data: map<string, Json>)
    returns (updated: map<string, Json>)
    ensures updated == Put(result, "request", Section(data, "request", RequestKeys))
  {
    updated := result;
    if "request" in data && data["request"].Obj? {
      var reqInfo := CollectRequestInfo(data["request"].fields);
      if |reqInfo| > 0 {
        updated := updated["request" := Obj(reqInfo)];
      }
    }
  }

  /** FormatOccurrenceData: starts from an empty map and inserts keys one
      guard at a time. */
  method FormatOccurrenceData(data: map<string, Json>, render: Json -> string)
    returns (result: map<string, Json>)
    ensures result == Summary(data, render)
  {
    result := map[];
    if "environment" in data {
      result := result["environment" := data["environment"]];
    }
    if "level" in data {
      result := result["level" := data["level"]];
    }
    assert result == Put(Put(map[], "environment", Get(data, "environment")), "level", Get(data, "level"));
    result := ExtractBody(result, data, render);
    result := ExtractServer(result, data);
    result := ExtractRequest(result, data);
    assert result == InSourceOrder(data, render);
    SummaryInSourceOrder(data, render);
  }
}
