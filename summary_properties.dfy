/** What the occurrence summary promises, stated over the declarative
    summary that FormatOccurrenceData is proved to build. */
module SummaryProperties {
  import opened Wrappers
  import opened JsonValue
  import opened OccurrenceSummary

  // ---------------------------------------------------------------------
  // Top-level keys

  /** `environment` and `level` are in the summary exactly when they are in
      the payload, with the value copied whatever its type. */
  lemma EnvironmentAndLevelCopied(data: map<string, Json>, render: Json -> string)
    ensures ("environment" in Summary(data, render)) <==> ("environment" in data)
    ensures "environment" in data ==> Summary(data, render)["environment"] == data["environment"]
    ensures ("level" in Summary(data, render)) <==> ("level" in data)
    ensures "level" in data ==> Summary(data, render)["level"] == data["level"]
  {
  }

  /** `message` is in the summary exactly when `body` and `body.message` are
      objects and `body.message` has a `body` key; its value is copied. */
  lemma MessagePresence(data: map<string, Json>, render: Json -> string)
    ensures ("message" in Summary(data, render)) <==>
      ("body" in data && data["body"].Obj?
       && "message" in data["body"].fields && data["body"].fields["message"].Obj?
       && "body" in data["body"].fields["message"].fields)
    ensures "message" in Summary(data, render) ==>
      Summary(data, render)["message"] == data["body"].fields["message"].fields["body"]
  {
  }

  // ---------------------------------------------------------------------
  // Exception and trace precedence

  /** Both exception keys are present together, exactly when the trace in
      use has an `exception` object; each holds the field of that object, or
      null when the object lacks it. */
  lemma ExceptionKeysTogether(data: map<string, Json>, render: Json -> string)
    ensures ("exception_class" in Summary(data, render)) <==> ActiveException(data).Some?
    ensures ("exception_message" in Summary(data, render)) <==> ActiveException(data).Some?
    ensures ActiveException(data).Some? ==>
      var exc := ActiveException(data).value;
      && Summary(data, render)["exception_class"] == (if "class" in exc then exc["class"] else Null)
      && Summary(data, render)["exception_message"] == (if "message" in exc then exc["message"] else Null)
  {
  }

  /** The head of `trace_chain` wins: when it has an `exception` object, the
      exception keys come from it, whatever `trace` holds. */
  lemma ChainHeadExceptionWins(data: map<string, Json>, render: Json -> string, head: map<string, Json>)
    requires ChainHeadOf(data) == Some(head)
    requires "exception" in head && head["exception"].Obj?
    ensures Summary(data, render)["exception_class"] == Lookup(head["exception"].fields, "class")
    ensures Summary(data, render)["exception_message"] == Lookup(head["exception"].fields, "message")
  {
  }

  /** The head of `trace_chain` wins for the backtrace too, when it has a
      `frames` array. */
  lemma ChainHeadFramesWin(data: map<string, Json>, render: Json -> string, head: map<string, Json>)
    requires ChainHeadOf(data) == Some(head)
    requires "frames" in head && head["frames"].Arr?
    ensures Summary(data, render)["backtrace"] == StrArray(Backtrace(head["frames"].elems, render))
  {
  }

  /** `trace` survives wherever the head of the chain (if any) lacks the
      sub-object: its exception fields are used when the head has no
      `exception` object, and its frames when the head has no `frames`
      array. */
  lemma TraceFallback(data: map<string, Json>, render: Json -> string)
    ensures ExceptionIn(ChainHeadOf(data)).None? ==>
      ActiveException(data) == ExceptionIn(TraceOf(data))
    ensures FramesIn(ChainHeadOf(data)).None? ==>
      ActiveFrames(data) == FramesIn(TraceOf(data))
    ensures ExceptionIn(ChainHeadOf(data)).None? && ExceptionIn(TraceOf(data)).Some? ==>
      Summary(data, render)["exception_class"] == Lookup(ExceptionIn(TraceOf(data)).value, "class")
    ensures ExceptionIn(ChainHeadOf(data)).None? && ExceptionIn(TraceOf(data)).Some? ==>
      Summary(data, render)["exception_message"] == Lookup(ExceptionIn(TraceOf(data)).value, "message")
    ensures FramesIn(ChainHeadOf(data)).None? && FramesIn(TraceOf(data)).Some? ==>
      Summary(data, render)["backtrace"] == StrArray(Backtrace(FramesIn(TraceOf(data)).value, render))
  {
  }

  /** A payload with both `trace` and a non-empty `trace_chain` whose head
      has frames but no exception: the exception comes from `trace`, the
      backtrace from the chain head. */
  lemma MixedTraceExample(render: Json -> string)
    ensures
      var exc := Obj(map["class" := Str("E"), "message" := Str("boom")]);
      var head := Obj(map["frames" := Arr([])]);
      var body := Obj(map["trace" := Obj(map["exception" := exc]), "trace_chain" := Arr([head])]);
      var s := Summary(map["body" := body], render);
      && s["exception_class"] == Str("E")
      && s["exception_message"] == Str("boom")
      && s["backtrace"] == Arr([])
  {
  }

  // ---------------------------------------------------------------------
  // Backtrace

  /** The positions of the object frames, in increasing order. */
  ghost function ObjectIndices(frames: seq<Json>): seq<nat>
  {
    if frames == [] then []
    else
      var n := |frames| - 1;
      ObjectIndices(frames[..n]) + (if frames[n].Obj? then [n] else [])
  }

  /** ObjectFrames keeps exactly the object frames, in their original
      order: the k-th kept frame is the frame at the k-th object position,
      the positions increase, and every object frame's position is among
      them. */
  lemma {:induction false} ObjectFramesFilter(frames: seq<Json>)
    ensures |ObjectIndices(frames)| == |ObjectFrames(frames)|
    ensures forall j :: 0 <= j < |ObjectIndices(frames)| ==>
      ObjectIndices(frames)[j] < |frames| && frames[ObjectIndices(frames)[j]] == Obj(ObjectFrames(frames)[j])
    ensures forall j, j' :: 0 <= j < j' < |ObjectIndices(frames)| ==>
      ObjectIndices(frames)[j] < ObjectIndices(frames)[j']
    ensures forall i :: 0 <= i < |frames| && frames[i].Obj? ==> i in ObjectIndices(frames)
  {
    if frames != [] {
      var n := |frames| - 1;
      var init := frames[..n];
      ObjectFramesFilter(init);
      assert forall i :: 0 <= i < n ==> frames[i] == init[i];
      if frames[n].Obj? {
        assert ObjectIndices(frames) == ObjectIndices(init) + [n];
        assert ObjectFrames(frames) == ObjectFrames(init) + [frames[n].fields];
      } else {
        assert ObjectIndices(frames) == ObjectIndices(init);
        assert ObjectFrames(frames) == ObjectFrames(init);
      }
    }
  }

  /** Filtering distributes over concatenation: the object frames of `a + b`
      are those of `a` followed by those of `b`. */
  lemma {:induction false} ObjectFramesAppend(a: seq<Json>, b: seq<Json>)
    ensures ObjectFrames(a + b) == ObjectFrames(a) + ObjectFrames(b)
  {
    if b != [] {
      var n := |b| - 1;
      assert (a + b)[..|a + b| - 1] == a + b[..n];
      ObjectFramesAppend(a, b[..n]);
    } else {
      assert a + b == a;
    }
  }

  /** The backtrace has one line per object frame, in the frames' order,
      and each line is `filename:lineno in method` rendered from that frame. */
  lemma BacktraceLines(frames: seq<Json>, render: Json -> string)
    ensures |Backtrace(frames, render)| == |ObjectIndices(frames)|
    ensures forall j :: 0 <= j < |ObjectIndices(frames)| ==>
      ObjectIndices(frames)[j] < |frames| && frames[ObjectIndices(frames)[j]].Obj?
    ensures forall j :: 0 <= j < |Backtrace(frames, render)| ==>
      var frame := frames[ObjectIndices(frames)[j]].fields;
      Backtrace(frames, render)[j]
        == render(Lookup(frame, "filename")) + ":" + render(Lookup(frame, "lineno"))
           + " in " + render(Lookup(frame, "method"))
  {
  }

  /** A frame that is not an object adds nothing to the backtrace. */
  lemma NonObjectFrameSkipped(frames: seq<Json>, frame: Json, render: Json -> string)
    requires !frame.Obj?
    ensures Backtrace(frames + [frame], render) == Backtrace(frames, render)
  {
  }

  /** `backtrace` is in the summary exactly when the trace in use has a
      `frames` array (even an empty one), and it holds that array's lines. */
  lemma BacktracePresence(data: map<string, Json>, render: Json -> string)
    ensures ("backtrace" in Summary(data, render)) <==> ActiveFrames(data).Some?
    ensures ActiveFrames(data).Some? ==>
      Summary(data, render)["backtrace"] == StrArray(Backtrace(ActiveFrames(data).value, render))
  {
  }

  /** The frame `{filename: "a.py", lineno: 10, method: "f"}` gives the line
      `a.py:10 in f` when the three values render as written. */
  lemma FrameLineExample(render: Json -> string)
    requires render(Str("a.py")) == "a.py" && render(Num(10.0)) == "10" && render(Str("f")) == "f"
    ensures FrameLine(map["filename" := Str("a.py"), "lineno" := Num(10.0), "method" := Str("f")], render)
      == "a.py:10 in f"
  {
  }

  // ---------------------------------------------------------------------
  // Server and request sections

  /** A projection is empty exactly when the source has none of the keys. */
  lemma ProjectedEmpty(src: map<string, Json>, keys: set<string>)
    ensures (|Projected(src, keys)| > 0) <==> (exists k :: k in keys && k in src)
  {
    var p := Projected(src, keys);
    if exists k :: k in keys && k in src {
      var k :| k in keys && k in src;
      assert k in p;
      assert |p| > 0;
    } else {
      assert p == map[];
    }
  }

  /** `server` is in the summary exactly when `data.server` is an object with
      at least one of host, root and pid, and it then holds exactly those of
      the three keys the object has, with their values. */
  lemma ServerAllOrNothing(data: map<string, Json>, render: Json -> string)
    ensures ("server" in Summary(data, render)) <==>
      ("server" in data && data["server"].Obj?
       && ("host" in data["server"].fields || "root" in data["server"].fields
           || "pid" in data["server"].fields))
    ensures "server" in Summary(data, render) ==>
      var src := data["server"].fields;
      && Summary(data, render)["server"].Obj?
      && Summary(data, render)["server"].fields.Keys == src.Keys * {"host", "root", "pid"}
      && forall k :: k in Summary(data, render)["server"].fields ==>
           Summary(data, render)["server"].fields[k] == src[k]
  {
    EntryAtKeys(data, render);
    if "server" in data && data["server"].Obj? {
      ProjectedEmpty(data["server"].fields, ServerKeys);
    }
  }

  /** `request` follows the same all-or-nothing rule over url, method,
      user_ip, params and headers. */
  lemma RequestAllOrNothing(data: map<string, Json>, render: Json -> string)
    ensures ("request" in Summary(data, render)) <==>
      ("request" in data && data["request"].Obj?
       && ("url" in data["request"].fields || "method" in data["request"].fields
           || "user_ip" in data["request"].fields || "params" in data["request"].fields
           || "headers" in data["request"].fields))
    ensures "request" in Summary(data, render) ==>
      var src := data["request"].fields;
      && Summary(data, render)["request"].Obj?
      && Summary(data, render)["request"].fields.Keys
         == src.Keys * {"url", "method", "user_ip", "params", "headers"}
      && forall k :: k in Summary(data, render)["request"].fields ==>
           Summary(data, render)["request"].fields[k] == src[k]
  {
    EntryAtKeys(data, render);
    if "request" in data && data["request"].Obj? {
      ProjectedEmpty(data["request"].fields, RequestKeys);
    }
  }
}
