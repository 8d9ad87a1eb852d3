/** The progress stream of the HTTP API: `_format_sse`, the keep-alive
    comment, the replay-then-tail merge of `event_generator`, and a reader
    of the event-stream format of section 9.2 of the WHATWG HTML Living
    Standard against which the produced text is checked. */
module ApiStream {
  import opened Basics
  import opened JsonValues
  import opened ApiRecords
  import opened ApiBroker

  /** `_format_sse(event)`: an optional `id:` line, the `event:` line (the
      event's `event` value, "message" when absent) and the `data:` line
      holding the JSON text, then a blank line. */
  function FormatSse(event: Fields): (r: string)
    ensures EndsWith(r, "\n\n")
  {
    var payload := Dumps(JObj(event));
    var name := PyStr(Get(event, "event").GetOr(JStr("message")));
    var lines := ["event: " + name, "data: " + payload];
    var framed := if Get(event, "id").Some? then ["id: " + PyStr(Get(event, "id").value)] + lines else lines;
    Join("\n", framed) + "\n\n"
  }

  /** The comment frame sent when no event arrived within the timeout. */
  const KeepAliveText: string := ": keep-alive\n\n"

  // ---------------------------------------------------------------------
  // Reading an event stream (section 9.2.6 of the WHATWG HTML Living
  // Standard), for streams whose lines end in LF.

  /** The reader's buffers: data, event type and last event ID. */
  datatype SseState = SseState(data: string, eventType: string, lastId: string)

  /** An event as the reader dispatches it to the client. */
  datatype SseEvent = SseEvent(eventType: string, data: string, lastEventId: string)

  const Fresh: SseState := SseState("", "", "")

  function ProcessField(st: SseState, field: string, value: string): SseState {
    if field == "event" then st.(eventType := value)
    else if field == "data" then st.(data := st.data + value + "\n")
    else if field == "id" then (if '\U{0}' in value then st else st.(lastId := value))
    else st
  }

  /** A blank line: dispatch the buffered event, unless no data was buffered. */
  function DispatchEvent(st: SseState): (SseState, Option<SseEvent>) {
    var reset := st.(data := "", eventType := "");
    if st.data == "" then (reset, None)
    else (reset, Some(SseEvent(if st.eventType == "" then "message" else st.eventType,
                               st.data[..|st.data| - 1], st.lastId)))
  }

  function StepLine(st: SseState, line: string): (SseState, Option<SseEvent>) {
    if line == "" then DispatchEvent(st)
    else if line[0] == ':' then (st, None)
    else if ':' in line then
      var i := IndexOf(line, ':');
      var value := line[i + 1..];
      (ProcessField(st, line[..i], if value != "" && value[0] == ' ' then value[1..] else value), None)
    else (ProcessField(st, line, ""), None)
  }

  function RunLines(st: SseState, lines: seq<string>): (SseState, seq<SseEvent>)
    decreases |lines|
  {
    if lines == [] then (st, [])
    else
      var step := StepLine(st, lines[0]);
      var rest := RunLines(step.0, lines[1..]);
      (rest.0, (if step.1.Some? then [step.1.value] else []) + rest.1)
  }

  lemma {:induction false} RunLinesAppend(st: SseState, a: seq<string>, b: seq<string>)
    ensures RunLines(st, a + b).0 == RunLines(RunLines(st, a).0, b).0
    ensures RunLines(st, a + b).1 == RunLines(st, a).1 + RunLines(RunLines(st, a).0, b).1
    decreases |a|
  {
    if a != [] {
      assert (a + b)[1..] == a[1..] + b;
      RunLinesAppend(StepLine(st, a[0]).0, a[1..], b);
    } else {
      assert a + b == b;
    }
  }

  /** The events a client reads from a complete stream text; a trailing
      unterminated line is discarded. */
  function ParseStream(text: string): seq<SseEvent> {
    var pieces := Split(text, '\n');
    RunLines(Fresh, pieces[..|pieces| - 1]).1
  }

  // ---------------------------------------------------------------------
  // The merge of `event_generator`.

  /** What one turn of the tailing loop observes: the client has gone, the
      five-second wait timed out, or an event came out of the queue. */
  datatype Wake = Disconnected | TimedOut | Received(ev: JobEvent)

  /** What the generator yields: an event frame or the keep-alive comment. */
  datatype Out = Frame(ev: JobEvent) | KeepAlive

  /** The high-water mark after replaying events. */
  function MaxId(last: int, events: seq<JobEvent>): (r: int)
    ensures r >= last
    ensures forall k :: 0 <= k < |events| ==> events[k].id <= r
    decreases |events|
  {
    if events == [] then last
    else MaxId(if events[0].id > last then events[0].id else last, events[1..])
  }

  /** The tailing loop from high-water mark `last`: stop when the client has
      gone; a timeout yields a keep-alive; a queued event whose id is
      nonzero and not above the mark is dropped; otherwise it is sent, and
      the loop ends right after a terminal status event. */
  function Tail(live: seq<Wake>, last: int): seq<Out> {
    if live == [] then []
    else
      match live[0]
      case Disconnected => []
      case TimedOut => [KeepAlive] + Tail(live[1..], last)
      case Received(ev) =>
        if ev.id != 0 && ev.id <= last then Tail(live[1..], last)
        else if IsTerminalEvent(ev) then [Frame(ev)]
        else [Frame(ev)] + Tail(live[1..], if ev.id > last then ev.id else last)
  }

  function Replay(history: seq<JobEvent>): (r: seq<Out>)
    ensures |r| == |history|
  {
    seq(|history|, k requires 0 <= k < |history| => Frame(history[k]))
  }

  /** Everything `event_generator` yields: the record's history in order,
      then the tail. */
  function Merge(history: seq<JobEvent>, live: seq<Wake>): seq<Out> {
    Replay(history) + Tail(live, MaxId(0, history))
  }

  /** Every event the tail sends with a nonzero id is above `last`. */
  ghost predicate IdsAbove(out: seq<Out>, last: int) {
    forall k :: 0 <= k < |out| && out[k].Frame? && out[k].ev.id != 0 ==> out[k].ev.id > last
  }

  /** The nonzero ids among the events sent strictly increase. */
  ghost predicate IdsIncrease(out: seq<Out>) {
    forall i, j :: 0 <= i < j < |out| && out[i].Frame? && out[j].Frame? && out[i].ev.id != 0 && out[j].ev.id != 0
      ==> out[i].ev.id < out[j].ev.id
  }

  /** Nothing follows a terminal status event. */
  ghost predicate EndsAtTerminal(out: seq<Out>) {
    forall k :: 0 <= k < |out| && out[k].Frame? && IsTerminalEvent(out[k].ev) ==> k == |out| - 1
  }

  /** What the tail sends is newer than the mark it started from, in
      increasing id order, and ends at the first terminal event. */
  lemma {:induction false} TailDelivery(live: seq<Wake>, last: int)
    ensures IdsAbove(Tail(live, last), last)
    ensures IdsIncrease(Tail(live, last))
    ensures EndsAtTerminal(Tail(live, last))
    decreases |live|
  {
    if live != [] {
      match live[0]
      case Disconnected =>
      case TimedOut =>
        TailDelivery(live[1..], last);
        KeepAliveFirst(Tail(live[1..], last), last);
      case Received(ev) =>
        if ev.id != 0 && ev.id <= last {
          TailDelivery(live[1..], last);
        } else if !IsTerminalEvent(ev) {
          var next := if ev.id > last then ev.id else last;
          TailDelivery(live[1..], next);
          FrameFirst(ev, Tail(live[1..], next), last, next);
        }
    }
  }

  /** A keep-alive in front keeps the three properties. */
  lemma KeepAliveFirst(rest: seq<Out>, last: int)
    requires IdsAbove(rest, last) && IdsIncrease(rest) && EndsAtTerminal(rest)
    ensures var out := [KeepAlive] + rest;
      IdsAbove(out, last) && IdsIncrease(out) && EndsAtTerminal(out)
  {
    var out := [KeepAlive] + rest;
    assert forall k :: 1 <= k < |out| ==> out[k] == rest[k - 1];
  }

  /** A non-terminal event above the mark, in front of what is sent after
      it from the raised mark, keeps the three properties. */
  lemma FrameFirst(ev: JobEvent, rest: seq<Out>, last: int, next: int)
    requires !IsTerminalEvent(ev) && (ev.id == 0 || ev.id > last)
    requires next == (if ev.id > last then ev.id else last)
    requires IdsAbove(rest, next) && IdsIncrease(rest) && EndsAtTerminal(rest)
    ensures var out := [Frame(ev)] + rest;
      IdsAbove(out, last) && IdsIncrease(out) && EndsAtTerminal(out)
  {
    var out := [Frame(ev)] + rest;
    assert forall k :: 1 <= k < |out| ==> out[k] == rest[k - 1];
  }

  /** The stream a client receives: the history replayed as it is, then only
      events newer than all of it (or without an id), in strictly increasing
      id order, with nothing after a terminal event of the tail. */
  lemma MergeDelivery(history: seq<JobEvent>, live: seq<Wake>)
    ensures var out := Merge(history, live);
      var n := |history|;
      && |out| >= n
      && (forall k :: 0 <= k < n ==> out[k] == Frame(history[k]))
      && (forall k :: n <= k < |out| && out[k].Frame? && out[k].ev.id != 0 ==>
            forall h :: 0 <= h < n ==> history[h].id < out[k].ev.id)
      && IdsIncrease(out[n..])
      && EndsAtTerminal(out[n..])
  {
    var out := Merge(history, live);
    var n := |history|;
    var m := MaxId(0, history);
    var t := Tail(live, m);
    TailDelivery(live, m);
    assert out[n..] == t;
    forall k | n <= k < |out| && out[k].Frame? && out[k].ev.id != 0
      ensures forall h :: 0 <= h < n ==> history[h].id < out[k].ev.id
    {
      assert out[k] == t[k - n];
    }
  }

  /** A client that connects after the job finished gets the whole history,
      terminal event included, and the stream then stays open: the replay
      does not look for terminal events, only the tail does. */
  lemma ReplayDoesNotEnd(history: seq<JobEvent>)
    ensures Merge(history, [TimedOut, TimedOut]) == Replay(history) + [KeepAlive, KeepAlive]
  {
    var m := MaxId(0, history);
    assert [TimedOut, TimedOut][1..] == [TimedOut];
    assert Tail([TimedOut], m) == [KeepAlive];
  }

  /** Subscribing before any event exists and then receiving two events and
      a timeout yields exactly those two events in order, then the
      keep-alive. */
  lemma TwoEventsThenIdle(e1: JobEvent, e2: JobEvent)
    requires e1.id == 1 && e2.id == 2 && !IsTerminalEvent(e1) && !IsTerminalEvent(e2)
    ensures Merge([], [Received(e1), Received(e2), TimedOut]) == [Frame(e1), Frame(e2), KeepAlive]
  {
    var live := [Received(e1), Received(e2), TimedOut];
    assert live[1..] == [Received(e2), TimedOut];
    assert live[1..][1..] == [TimedOut];
    assert Tail([TimedOut], 2) == [KeepAlive];
    assert Tail(live[1..], 1) == [Frame(e2), KeepAlive];
  }

  /** A live event that duplicates a replayed one is not sent again. */
  lemma {:induction false} DuplicateDropped(history: seq<JobEvent>, k: nat, rest: seq<Wake>)
    requires k < |history| && history[k].id != 0
    ensures Merge(history, [Received(history[k])] + rest) == Merge(history, rest)
  {
    assert ([Received(history[k])] + rest)[1..] == rest;
  }

  // ---------------------------------------------------------------------
  // The text of the stream.

  function OutText(o: Out): string {
    match o
    case Frame(ev) => FormatSse(EventToDict(ev))
    case KeepAlive => KeepAliveText
  }

  /** The chunks the generator yields, one per output. */
  function Chunks(outs: seq<Out>): (r: seq<string>)
    ensures |r| == |outs|
  {
    Map(OutText, outs)
  }

  /** The lines of one output, without the blank line that ends it. */
  function OutLines(o: Out): seq<string> {
    match o
    case Frame(ev) =>
      ["id: " + IntToString(ev.id), "event: " + ev.event, "data: " + Dumps(JObj(EventToDict(ev)))]
    case KeepAlive => [": keep-alive"]
  }

  function StreamLines(outs: seq<Out>): seq<string> {
    if outs == [] then [] else OutLines(outs[0]) + [""] + StreamLines(outs[1..])
  }

  /** What a client reading the stream should see for each output. */
  function ClientView(outs: seq<Out>): seq<SseEvent> {
    if outs == [] then []
    else
      match outs[0]
      case KeepAlive => ClientView(outs[1..])
      case Frame(ev) =>
        [SseEvent(if ev.event == "" then "message" else ev.event, Dumps(JObj(EventToDict(ev))), IntToString(ev.id))]
        + ClientView(outs[1..])
  }

  /** Event names are single-line. */
  predicate SingleLine(outs: seq<Out>) {
    forall k :: 0 <= k < |outs| && outs[k].Frame? ==> '\n' !in outs[k].ev.event && '\r' !in outs[k].ev.event
  }

  lemma OutTextLines(o: Out)
    ensures OutText(o) == Join("\n", OutLines(o) + [""]) + "\n"
  {
    match o
    case KeepAlive =>
    case Frame(ev) =>
      var lines := OutLines(o);
      FrameText(ev);
      JoinAppend("\n", lines, [""]);
      assert Join("\n", lines) + "\n\n" == (Join("\n", lines) + "\n" + "") + "\n";
  }

  /** The frame of an event: its id, its name and its JSON text. */
  lemma FrameText(ev: JobEvent)
    ensures FormatSse(EventToDict(ev)) ==
      Join("\n", ["id: " + IntToString(ev.id), "event: " + ev.event, "data: " + Dumps(JObj(EventToDict(ev)))]) + "\n\n"
  {
    var d := EventToDict(ev);
    GetFirst(d, "id", 0);
    GetFirst(d, "event", 2);
    var lines := ["event: " + ev.event, "data: " + Dumps(JObj(d))];
    assert ["id: " + IntToString(ev.id)] + lines == ["id: " + IntToString(ev.id), "event: " + ev.event, "data: " + Dumps(JObj(d))];
  }

  lemma {:induction false} FlattenChunks(outs: seq<Out>)
    ensures Flatten(Chunks(outs)) == Join("\n", StreamLines(outs) + [""])
  {
    if outs != [] {
      assert Chunks(outs)[1..] == Chunks(outs[1..]);
      FlattenChunks(outs[1..]);
      OutTextLines(outs[0]);
      assert StreamLines(outs) + [""] == (OutLines(outs[0]) + [""]) + (StreamLines(outs[1..]) + [""]);
      JoinAppend("\n", OutLines(outs[0]) + [""], StreamLines(outs[1..]) + [""]);
    }
  }

  lemma {:induction false} StreamLinesSingle(outs: seq<Out>)
    requires SingleLine(outs)
    ensures forall k :: 0 <= k < |StreamLines(outs)| ==> '\n' !in StreamLines(outs)[k] && '\r' !in StreamLines(outs)[k]
    decreases |outs|
  {
    if outs != [] {
      StreamLinesSingle(outs[1..]);
      var first := OutLines(outs[0]) + [""];
      OutLinesSingle(outs[0]);
      LinesAppendSingle(first, StreamLines(outs[1..]));
    }
  }

  /** The lines of one output hold no line break. */
  lemma OutLinesSingle(o: Out)
    requires o.Frame? ==> '\n' !in o.ev.event && '\r' !in o.ev.event
    ensures forall k :: 0 <= k < |OutLines(o) + [""]| ==> '\n' !in (OutLines(o) + [""])[k] && '\r' !in (OutLines(o) + [""])[k]
  {
    if o.Frame? {
      var ev := o.ev;
      assert '\n' !in IntToString(ev.id) && '\r' !in IntToString(ev.id);
      assert '\n' !in Dumps(JObj(EventToDict(ev))) && '\r' !in Dumps(JObj(EventToDict(ev)));
    }
  }

  lemma LinesAppendSingle(a: seq<string>, b: seq<string>)
    requires forall k :: 0 <= k < |a| ==> '\n' !in a[k] && '\r' !in a[k]
    requires forall k :: 0 <= k < |b| ==> '\n' !in b[k] && '\r' !in b[k]
    ensures forall k :: 0 <= k < |a + b| ==> '\n' !in (a + b)[k] && '\r' !in (a + b)[k]
  {
  }

  lemma RunLinesCons(st: SseState, line: string, rest: seq<string>)
    ensures RunLines(st, [line] + rest).0 == RunLines(StepLine(st, line).0, rest).0
    ensures RunLines(st, [line] + rest).1 ==
      (if StepLine(st, line).1.Some? then [StepLine(st, line).1.value] else []) + RunLines(StepLine(st, line).0, rest).1
  {
    assert ([line] + rest)[1..] == rest;
  }

  /** A line `name: value` sets the field `name` to `value`; `key` is the
      text `name: ` before the value. */
  lemma FieldLine(st: SseState, name: string, key: string, value: string)
    requires name != [] && ':' !in name
    requires |key| == |name| + 2 && key[..|name|] == name && key[|name|] == ':' && key[|name| + 1] == ' '
    ensures StepLine(st, key + value) == (ProcessField(st, name, value), None)
  {
    var line := key + value;
    var i := |name|;
    assert line[..i] == name;
    IndexOfAt(line, ':', i);
    assert line[i + 1..] == " " + value;
    assert line[i + 1..][1..] == value;
  }

  /** The keep-alive comment and its blank line dispatch nothing. */
  lemma KeepAliveRead(st: SseState)
    requires st.data == "" && st.eventType == ""
    ensures RunLines(st, [": keep-alive", ""]) == (st, [])
  {
    var blank: seq<string> := [""];
    assert StepLine(st, "") == (st, None);
    RunLinesCons(st, "", []);
    assert RunLines(st, blank) == (st, []);
    assert StepLine(st, ": keep-alive") == (st, None);
    RunLinesCons(st, ": keep-alive", blank);
    assert [": keep-alive", ""] == [": keep-alive"] + blank;
  }

  /** Each line of an event frame, read on its own. */
  lemma FrameSteps(st: SseState, id: string, name: string, payload: string)
    requires st.data == "" && st.eventType == ""
    requires '\U{0}' !in id
    ensures StepLine(st, "id: " + id) == (st.(lastId := id), None)
    ensures StepLine(st.(lastId := id), "event: " + name) == (st.(lastId := id, eventType := name), None)
    ensures StepLine(st.(lastId := id, eventType := name), "data: " + payload)
      == (st.(lastId := id, eventType := name, data := payload + "\n"), None)
    ensures StepLine(st.(lastId := id, eventType := name, data := payload + "\n"), "")
      == (st.(lastId := id), Some(SseEvent(if name == "" then "message" else name, payload, id)))
  {
    var s1 := st.(lastId := id);
    var s2 := s1.(eventType := name);
    FieldLine(st, "id", "id: ", id);
    FieldLine(s1, "event", "event: ", name);
    FieldLine(s2, "data", "data: ", payload);
    assert s2.data + payload + "\n" == payload + "\n";
    assert (payload + "\n")[..|payload|] == payload;
  }

  /** The blank line that ends a frame dispatches the buffered event. */
  lemma BlankLineRead(st: SseState, id: string, name: string, payload: string)
    requires st.data == "" && st.eventType == ""
    ensures var r := RunLines(st.(lastId := id, eventType := name, data := payload + "\n"), [""]);
      r.0 == st.(lastId := id) && r.1 == [SseEvent(if name == "" then "message" else name, payload, id)]
  {
    var s1 := st.(lastId := id);
    var s3 := st.(lastId := id, eventType := name, data := payload + "\n");
    var seen := SseEvent(if name == "" then "message" else name, payload, id);
    assert StepLine(s3, "") == (s1, Some(seen)) by {
      assert (payload + "\n")[..|payload|] == payload;
    }
    var none: seq<string> := [];
    var nothing: seq<SseEvent> := [];
    assert RunLines(s1, none).0 == s1 && RunLines(s1, none).1 == nothing;
    RunLinesCons(s3, "", none);
    assert [""] + none == [""];
    assert [seen] + nothing == [seen];
  }

  /** The three lines of an event frame and its blank line dispatch that
      event and leave the buffers empty. */
  lemma FrameLinesRead(st: SseState, id: string, name: string, payload: string)
    requires st.data == "" && st.eventType == ""
    requires '\U{0}' !in id
    ensures var r := RunLines(st, ["id: " + id, "event: " + name, "data: " + payload, ""]);
      && r.0.data == "" && r.0.eventType == ""
      && r.1 == [SseEvent(if name == "" then "message" else name, payload, id)]
  {
    var idLine := "id: " + id;
    var evLine := "event: " + name;
    var dataLine := "data: " + payload;
    var l4: seq<string> := [""];
    var l3 := [dataLine] + l4;
    var l2 := [evLine] + l3;
    var l1 := [idLine] + l2;
    FieldLinesQuiet(st, id, name, payload);
    BlankLineRead(st, id, name, payload);
    assert l1 == [idLine, evLine, dataLine, ""];
  }

  /** The three field lines of a frame only fill the buffers. */
  lemma FieldLinesQuiet(st: SseState, id: string, name: string, payload: string)
    requires st.data == "" && st.eventType == ""
    requires '\U{0}' !in id
    ensures RunLines(st, ["id: " + id] + (["event: " + name] + (["data: " + payload] + [""])))
      == RunLines(st.(lastId := id, eventType := name, data := payload + "\n"), [""])
  {
    var l4: seq<string> := [""];
    var l3 := ["data: " + payload] + l4;
    var l2 := ["event: " + name] + l3;
    FrameSteps(st, id, name, payload);
    QuietLine(st.(lastId := id, eventType := name), "data: " + payload, l4, st.(lastId := id, eventType := name, data := payload + "\n"));
    QuietLine(st.(lastId := id), "event: " + name, l3, st.(lastId := id, eventType := name));
    QuietLine(st, "id: " + id, l2, st.(lastId := id));
  }

  /** A line that dispatches nothing only moves the reader to its next state. */
  lemma QuietLine(st: SseState, line: string, rest: seq<string>, next: SseState)
    requires StepLine(st, line) == (next, None)
    ensures RunLines(st, [line] + rest) == RunLines(next, rest)
  {
    RunLinesCons(st, line, rest);
    var nothing: seq<SseEvent> := [];
    assert nothing + RunLines(next, rest).1 == RunLines(next, rest).1;
  }

  lemma FrameRead(st: SseState, o: Out)
    requires st.data == "" && st.eventType == ""
    ensures RunLines(st, OutLines(o) + [""]).0.data == ""
    ensures RunLines(st, OutLines(o) + [""]).0.eventType == ""
    ensures RunLines(st, OutLines(o) + [""]).1 == ClientView([o])
  {
    match o
    case KeepAlive =>
      KeepAliveRead(st);
    case Frame(ev) =>
      var id := IntToString(ev.id);
      var payload := Dumps(JObj(EventToDict(ev)));
      assert OutLines(o) + [""] == ["id: " + id, "event: " + ev.event, "data: " + payload, ""];
      FrameLinesRead(st, id, ev.event, payload);
      assert [o][1..] == [];
  }

  lemma {:induction false} StreamRead(st: SseState, outs: seq<Out>)
    requires st.data == "" && st.eventType == ""
    requires SingleLine(outs)
    ensures RunLines(st, StreamLines(outs)).1 == ClientView(outs)
    decreases |outs|
  {
    if outs != [] {
      var first := OutLines(outs[0]) + [""];
      FrameRead(st, outs[0]);
      RunLinesAppend(st, first, StreamLines(outs[1..]));
      StreamRead(RunLines(st, first).0, outs[1..]);
      assert ClientView(outs) == ClientView([outs[0]]) + ClientView(outs[1..]);
    }
  }

  /** A client reading the text the generator yields dispatches exactly the
      events that were sent, in order, each with its JSON as data, its name
      as type and its id as last event ID; keep-alives dispatch nothing. */
  lemma StreamRoundTrip(outs: seq<Out>)
    requires SingleLine(outs)
    ensures ParseStream(Flatten(Chunks(outs))) == ClientView(outs)
  {
    FlattenChunks(outs);
    StreamLinesSingle(outs);
    SplitJoin(StreamLines(outs) + [""], '\n');
    var pieces := StreamLines(outs) + [""];
    assert pieces[..|pieces| - 1] == StreamLines(outs);
    StreamRead(Fresh, outs);
  }

  lemma ChunksAppend(a: seq<Out>, b: seq<Out>)
    ensures Chunks(a + b) == Chunks(a) + Chunks(b)
  {
    MapAppend(OutText, a, b);
  }

  /** The replay half of `event_generator`: one frame per recorded event,
      and the high-water mark of their ids. */
  method ReplayHistory(history: seq<JobEvent>) returns (chunks: seq<string>, last: int)
    ensures chunks == Chunks(Replay(history))
    ensures last == MaxId(0, history)
  {
    chunks := [];
    last := 0;
    var i := 0;
    while i < |history|
      invariant 0 <= i <= |history|
      invariant chunks == Chunks(Replay(history[..i]))
      invariant last == MaxId(0, history[..i])
    {
      var payload := EventToDict(history[i]);
      MaxIdSnoc(0, history[..i], history[i]);
      assert history[..i + 1] == history[..i] + [history[i]];
      MapStep(OutText, Replay(history), i);
      ReplayPrefix(history, i);
      ReplayPrefix(history, i + 1);
      last := if history[i].id > last then history[i].id else last;
      chunks := chunks + [FormatSse(payload)];
      i := i + 1;
    }
    assert history[..i] == history;
  }

  lemma ReplayPrefix(history: seq<JobEvent>, i: nat)
    requires i <= |history|
    ensures Replay(history[..i]) == Replay(history)[..i]
  {
  }

  /** The tailing half of `event_generator`. */
  method TailQueue(live: seq<Wake>, last0: int) returns (chunks: seq<string>)
    ensures chunks == Chunks(Tail(live, last0))
  {
    ghost var outs: seq<Out> := [];
    chunks := [];
    var last := last0;
    var j := 0;
    var stop := false;
    while j < |live| && !stop
      invariant 0 <= j <= |live|
      invariant chunks == Chunks(outs)
      invariant !stop ==> outs + Tail(live[j..], last) == Tail(live, last0)
      invariant stop ==> outs == Tail(live, last0)
      decreases |live| - j, !stop
    {
      TailAt(live, j, last);
      match live[j]
      case Disconnected =>
        stop := true;
      case TimedOut =>
        ChunksAppend(outs, [KeepAlive]);
        ChunkOf(KeepAlive);
        AppendAssoc(outs, [KeepAlive], Tail(live[j + 1..], last));
        chunks := chunks + [KeepAliveText];
        outs := outs + [KeepAlive];
        j := j + 1;
      case Received(ev) =>
        if ev.id != 0 && ev.id <= last {
          j := j + 1;
        } else {
          ChunksAppend(outs, [Frame(ev)]);
          ChunkOf(Frame(ev));
          var next := if ev.id > last then ev.id else last;
          AppendAssoc(outs, [Frame(ev)], if IsTerminalEvent(ev) then [] else Tail(live[j + 1..], next));
          last := next;
          chunks := chunks + [FormatSse(EventToDict(ev))];
          outs := outs + [Frame(ev)];
          j := j + 1;
          if IsTerminalEvent(ev) {
            stop := true;
          }
        }
    }
    if !stop {
      assert live[j..] == [];
    }
  }

  lemma ChunkOf(o: Out)
    ensures Chunks([o]) == [OutText(o)]
  {
  }

  lemma AppendAssoc(a: seq<Out>, b: seq<Out>, c: seq<Out>)
    ensures (a + b) + c == a + (b + c)
    ensures c == [] ==> a + b + c == a + b
  {
  }

  /** One turn of the tailing loop, read off `Tail`. */
  lemma TailAt(live: seq<Wake>, j: nat, last: int)
    requires j < |live|
    ensures live[j].Disconnected? ==> Tail(live[j..], last) == []
    ensures live[j].TimedOut? ==> Tail(live[j..], last) == [KeepAlive] + Tail(live[j + 1..], last)
    ensures live[j].Received? && live[j].ev.id != 0 && live[j].ev.id <= last ==>
      Tail(live[j..], last) == Tail(live[j + 1..], last)
    ensures live[j].Received? && !(live[j].ev.id != 0 && live[j].ev.id <= last) ==>
      var ev := live[j].ev;
      Tail(live[j..], last) ==
        [Frame(ev)] + (if IsTerminalEvent(ev) then [] else Tail(live[j + 1..], if ev.id > last then ev.id else last))
  {
    assert live[j..][0] == live[j] && live[j..][1..] == live[j + 1..];
    if live[j].Received? && !(live[j].ev.id != 0 && live[j].ev.id <= last) && IsTerminalEvent(live[j].ev) {
      assert [Frame(live[j].ev)] + [] == [Frame(live[j].ev)];
    }
  }

  /** The stream text holds no carriage return, so its lines are exactly
      its LF-separated pieces, as the reader above assumes. */
  lemma StreamHasNoCarriageReturn(outs: seq<Out>)
    requires SingleLine(outs)
    ensures '\r' !in Flatten(Chunks(outs))
  {
    FlattenChunks(outs);
    StreamLinesSingle(outs);
    JoinAvoids("\n", StreamLines(outs) + [""], '\r');
  }

  /** `event_generator`: subscribe, replay the history, tail the queue, and
      unsubscribe on the way out whatever ended the loop, so the broker's
      subscriber lists are as they were. */
  method EventGenerator(broker: EventBroker, jobId: string, history: seq<JobEvent>, live: seq<Wake>)
    returns (chunks: seq<string>)
    requires broker.Valid()
    modifies broker
    ensures broker.Valid()
    ensures chunks == Chunks(Merge(history, live))
    ensures broker.subscribers == old(broker.subscribers)
  {
    ghost var before := broker.subscribers;
    var q := broker.Subscribe(jobId);
    var replayed, last := ReplayHistory(history);
    var tailed := TailQueue(live, last);
    ChunksAppend(Replay(history), Tail(live, last));
    chunks := replayed + tailed;
    SubscribeUnsubscribe(before, jobId, q);
    broker.Unsubscribe(jobId, q);
  }

  lemma {:induction false} MaxIdSnoc(last: int, events: seq<JobEvent>, e: JobEvent)
    ensures MaxId(last, events + [e]) == (if e.id > MaxId(last, events) then e.id else MaxId(last, events))
    decreases |events|
  {
    if events != [] {
      assert (events + [e])[1..] == events[1..] + [e];
      MaxIdSnoc(if events[0].id > last then events[0].id else last, events[1..], e);
    }
  }
}
