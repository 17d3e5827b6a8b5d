/**
 * The server: the registry of open connections and their command queues, the per-connection
 * consumer that runs one command at a time, and the endpoint that queues what the client sends.
 * A socket is the list of JSON messages sent on it; the endpoint and its consumer task are
 * interleaved at command granularity by a schedule of events.
 */
module Server {
  import opened Wrappers
  import opened Json
  import opened Agents

  /** A queued command: the `id` and `prompt` fields of a message from the client. */
  datatype Command = Command(id: Value, prompt: Value)

  /** One JSON message sent to the client. */
  datatype Record =
    | StartProcessing(id: Value)
    | Log(id: Value, message: string)
    | StreamMessage(id: Value, message: string)
    | EndProcessing(id: Value)

  /** A client connection; only what is sent on it is observed. */
  class WebSocket {
    var sent: seq<Record>

    constructor ()
      ensures sent == []
    {
      sent := [];
    }

    method SendJson(r: Record)
      modifies this
      ensures sent == old(sent) + [r]
    {
      sent := sent + [r];
    }
  }

  /** The `asyncio.Queue` of one connection. */
  class CommandQueue {
    var items: seq<Command>

    constructor ()
      ensures items == []
    {
      items := [];
    }

    method Put(c: Command)
      modifies this
      ensures items == old(items) + [c]
    {
      items := items + [c];
    }

    /** Takes the oldest command; the consumer only takes one when there is one. */
    method Get() returns (c: Command)
      requires items != []
      modifies this
      ensures c == old(items)[0] && items == old(items)[1..]
    {
      c := items[0];
      items := items[1..];
    }
  }

  /** The registry of open connections, each with its command queue. */
  class ConnectionManager {
    var active: map<WebSocket, CommandQueue>

    constructor ()
      ensures active == map[]
    {
      active := map[];
    }

    /** Registers the connection with a new, empty queue, replacing any earlier entry. */
    method Connect(ws: WebSocket)
      modifies this
      ensures ws in active && fresh(active[ws]) && active[ws].items == []
      ensures active == old(active)[ws := active[ws]]
    {
      var q := new CommandQueue();
      active := active[ws := q];
    }

    /** Removes the connection's entry; nothing happens if it has none. */
    method Disconnect(ws: WebSocket)
      modifies this
      ensures active == old(active) - {ws}
    {
      if ws in active {
        active := active - {ws};
      }
    }

    /** The connection's queue, or `None` exactly when it is not registered. */
    method GetQueue(ws: WebSocket) returns (q: Option<CommandQueue>)
      ensures q.Some? <==> ws in active
      ensures q.Some? ==> q.value == active[ws]
    {
      if ws in active {
        q := Some(active[ws]);
      } else {
        q := None;
      }
    }
  }

  // ---------------------------------------------------------------------------------------
  // What one command sends

  /** The messages for a run's emits: a log per non-empty yield, and the agent's own streams. */
  function Render(id: Value, emits: seq<Emit>): seq<Record> {
    if emits == [] then []
    else RenderOne(id, emits[0]) + Render(id, emits[1..])
  }

  /** At most one message per emit, each a log or a stream with the command's id, and no empty log. */
  lemma {:induction false} RenderSpec(id: Value, emits: seq<Emit>)
    ensures var r := Render(id, emits);
      && |r| <= |emits|
      && (forall x :: x in r ==> x.id == id && (x.Log? || x.StreamMessage?))
      && (forall x :: x in r && x.Log? ==> x.message != [])
  {
    if emits != [] {
      RenderSpec(id, emits[1..]);
      var r := Render(id, emits);
      forall x | x in r
        ensures x.id == id && (x.Log? || x.StreamMessage?)
        ensures x.Log? ==> x.message != []
      {
        if x !in RenderOne(id, emits[0]) {
          assert x in Render(id, emits[1..]);
        }
      }
    }
  }

  function RenderOne(id: Value, e: Emit): (r: seq<Record>) {
    match e
    case Yield(t) => if t == [] then [] else [Log(id, t)]
    case Stream(t) => [StreamMessage(id, t)]
  }

  lemma {:induction false} RenderSnoc(id: Value, emits: seq<Emit>, e: Emit)
    ensures Render(id, emits + [e]) == Render(id, emits) + RenderOne(id, e)
  {
    if emits != [] {
      assert (emits + [e])[1..] == emits[1..] + [e];
      RenderSnoc(id, emits[1..], e);
    } else {
      assert Render(id, [e]) == RenderOne(id, e) + Render(id, []);
    }
  }

  /** Everything the consumer sends for one command and the run of its agent. */
  function CommandRecords(c: Command, run: Run): seq<Record> {
    [StartProcessing(c.id)] + Render(c.id, run.emits) + (if run.raised then [] else [EndProcessing(c.id)])
  }

  /** The texts of the log messages, in order. */
  function Logged(records: seq<Record>): seq<string> {
    if records == [] then []
    else (if records[0].Log? then [records[0].message] else []) + Logged(records[1..])
  }

  /** The non-empty texts an agent yields, in order. */
  function NonEmptyYields(emits: seq<Emit>): seq<string> {
    if emits == [] then []
    else (if emits[0].Yield? && emits[0].text != [] then [emits[0].text] else []) + NonEmptyYields(emits[1..])
  }

  lemma {:induction false} LoggedAppend(a: seq<Record>, b: seq<Record>)
    ensures Logged(a + b) == Logged(a) + Logged(b)
  {
    if a != [] {
      assert (a + b)[1..] == a[1..] + b;
      LoggedAppend(a[1..], b);
    } else {
      assert a + b == b;
    }
  }

  lemma {:induction false} LoggedRender(id: Value, emits: seq<Emit>)
    ensures Logged(Render(id, emits)) == NonEmptyYields(emits)
  {
    if emits != [] {
      LoggedRender(id, emits[1..]);
      LoggedAppend(RenderOne(id, emits[0]), Render(id, emits[1..]));
    }
  }

  /**
   * A command's messages open with its `start_processing`, all carry its id, log exactly the
   * non-empty yields in order, and close with `end_processing` exactly when the run did not raise.
   */
  lemma CommandRecordsSpec(c: Command, run: Run)
    ensures var r := CommandRecords(c, run);
      && r[0] == StartProcessing(c.id)
      && (forall x :: x in r ==> x.id == c.id)
      && (forall k :: 0 < k < |r| ==> !r[k].StartProcessing?)
      && (EndProcessing(c.id) in r <==> !run.raised)
      && (!run.raised ==> r[|r| - 1] == EndProcessing(c.id))
      && Logged(r) == NonEmptyYields(run.emits)
  {
    var r := CommandRecords(c, run);
    var body := Render(c.id, run.emits);
    RenderSpec(c.id, run.emits);
    var tail: seq<Record> := if run.raised then [] else [EndProcessing(c.id)];
    forall k | 0 < k < |r| ensures !r[k].StartProcessing? {
      if k <= |body| {
        assert r[k] == body[k - 1];
        assert r[k] in body;
      }
    }
    if EndProcessing(c.id) in r {
      assert EndProcessing(c.id) !in body;
    }
    LoggedAppend([StartProcessing(c.id)] + body, tail);
    LoggedAppend([StartProcessing(c.id)], body);
    LoggedRender(c.id, run.emits);
  }

  /**
   * How a command's agent runs: the router applied to the command's prompt, given the files
   * that exist, returning the run and the files afterwards. `Deployed` is the router of the
   * assistant with its agents.
   */
  type Router = (Command, set<string>) -> (Run, set<string>)

  function Deployed(worlds: Command -> World): Router {
    (c: Command, files: set<string>) => RouteSpec(c.prompt, worlds(c), files)
  }

  /** What processing one command sends and the files afterwards. */
  function Process(c: Command, router: Router, files: set<string>): (seq<Record>, set<string>) {
    (CommandRecords(c, router(c, files).0), router(c, files).1)
  }

  /** One command of the consumer's loop, from routing to `end_processing`. */
  method ProcessCommand(ws: WebSocket, c: Command, router: Router, files: set<string>)
    returns (after: set<string>)
    modifies ws
    ensures ws.sent == old(ws.sent) + Process(c, router, files).0
    ensures after == Process(c, router, files).1
  {
    ws.SendJson(StartProcessing(c.id));
    var run;
    run, after := router(c, files).0, router(c, files).1;
    SendEmits(ws, c.id, run.emits);
    if !run.raised {
      ws.SendJson(EndProcessing(c.id));
    }
  }

  /** The consumer's `async for` over what the router yields, with the agent's own stream sends. */
  method SendEmits(ws: WebSocket, id: Value, emits: seq<Emit>)
    modifies ws
    ensures ws.sent == old(ws.sent) + Render(id, emits)
  {
    for i := 0 to |emits|
      invariant ws.sent == old(ws.sent) + Render(id, emits[..i])
    {
      RenderSnoc(id, emits[..i], emits[i]);
      assert emits[..i + 1] == emits[..i] + [emits[i]];
      match emits[i] {
        case Yield(t) =>
          if t != [] {
            ws.SendJson(Log(id, t));
          }
        case Stream(t) =>
          ws.SendJson(StreamMessage(id, t));
      }
    }
    assert emits[..|emits|] == emits;
  }

  /** One turn of the consumer's loop: take the oldest command and process it. */
  method ConsumeNext(ws: WebSocket, q: CommandQueue, router: Router, files: set<string>)
    returns (after: set<string>)
    requires q.items != []
    modifies ws, q
    ensures var (records, f) := Process(old(q.items)[0], router, files);
      ws.sent == old(ws.sent) + records && q.items == old(q.items)[1..] && after == f
  {
    var c := q.Get();
    after := ProcessCommand(ws, c, router, files);
  }

  /** Processing a whole queue, oldest first, each command seeing the files the previous left. */
  function Drain(queue: seq<Command>, router: Router, files: set<string>): (seq<Record>, set<string>)
  {
    if queue == [] then ([], files)
    else
      var (records, f) := Process(queue[0], router, files);
      var (rest, g) := Drain(queue[1..], router, f);
      (records + rest, g)
  }

  /**
   * `command_consumer` while no further command arrives: nothing when the connection has no
   * queue, otherwise every queued command in order until the queue is empty.
   */
  method CommandConsumer(m: ConnectionManager, ws: WebSocket, router: Router, files: set<string>)
    returns (after: set<string>)
    modifies ws, if ws in m.active then {m.active[ws]} else {}
    ensures ws !in m.active ==> ws.sent == old(ws.sent) && after == files
    ensures ws in m.active ==>
      && ws.sent == old(ws.sent) + Drain(old(m.active[ws].items), router, files).0
      && after == Drain(old(m.active[ws].items), router, files).1
      && m.active[ws].items == []
  {
    var queue := m.GetQueue(ws);
    if queue.None? {
      return files;
    }
    after := DrainQueue(ws, queue.value, router, files);
  }

  /** The consumer's loop over a queue that receives nothing new. */
  method DrainQueue(ws: WebSocket, q: CommandQueue, router: Router, files: set<string>)
    returns (after: set<string>)
    modifies ws, q
    ensures ws.sent == old(ws.sent) + Drain(old(q.items), router, files).0
    ensures after == Drain(old(q.items), router, files).1
    ensures q.items == []
  {
    after := files;
    ghost var done: seq<Record> := [];
    assert done + Drain(q.items, router, after).0 == Drain(q.items, router, after).0;
    while q.items != []
      invariant ws.sent == old(ws.sent) + done
      invariant Drain(old(q.items), router, files) ==
        (done + Drain(q.items, router, after).0, Drain(q.items, router, after).1)
      decreases |q.items|
    {
      var (records, f) := Process(q.items[0], router, after);
      DrainStep(q.items, router, after);
      ghost var rest := Drain(q.items[1..], router, f).0;
      assert done + (records + rest) == (done + records) + rest;
      after := ConsumeNext(ws, q, router, after);
      done := done + records;
    }
  }

  /** A proof helper: `Drain` unfolded once, for the loop of `DrainQueue`. */
  lemma DrainStep(queue: seq<Command>, router: Router, files: set<string>)
    requires queue != []
    ensures var (records, f) := Process(queue[0], router, files);
      Drain(queue, router, files) == (records + Drain(queue[1..], router, f).0, Drain(queue[1..], router, f).1)
  {
  }

  // ---------------------------------------------------------------------------------------
  // Ordering

  /** The ids of the commands, in order. */
  function Ids(cs: seq<Command>): (r: seq<Value>)
    ensures |r| == |cs| && forall i :: 0 <= i < |cs| ==> r[i] == cs[i].id
  {
    seq(|cs|, i requires 0 <= i < |cs| => cs[i].id)
  }

  /** The ids of the `start_processing` messages, in order. */
  function Starts(records: seq<Record>): seq<Value> {
    if records == [] then []
    else (if records[0].StartProcessing? then [records[0].id] else []) + Starts(records[1..])
  }

  lemma {:induction false} StartsAppend(a: seq<Record>, b: seq<Record>)
    ensures Starts(a + b) == Starts(a) + Starts(b)
  {
    if a != [] {
      assert (a + b)[1..] == a[1..] + b;
      StartsAppend(a[1..], b);
    } else {
      assert a + b == b;
    }
  }

  lemma {:induction false} StartsNone(records: seq<Record>)
    requires forall x :: x in records ==> !x.StartProcessing?
    ensures Starts(records) == []
  {
    if records != [] {
      assert records[0] in records;
      StartsNone(records[1..]);
    }
  }

  /** Each command's messages hold exactly one `start_processing`, with its id. */
  lemma StartsOfCommand(c: Command, run: Run)
    ensures Starts(CommandRecords(c, run)) == [c.id]
  {
    var body := Render(c.id, run.emits);
    RenderSpec(c.id, run.emits);
    var tail: seq<Record> := if run.raised then [] else [EndProcessing(c.id)];
    StartsAppend([StartProcessing(c.id)] + body, tail);
    StartsAppend([StartProcessing(c.id)], body);
    StartsNone(body);
    StartsNone(tail);
  }

  /** Draining a queue starts its commands in queue order, each exactly once. */
  lemma {:induction false} DrainStartsInOrder(queue: seq<Command>, router: Router, files: set<string>)
    ensures Starts(Drain(queue, router, files).0) == Ids(queue)
  {
    if queue != [] {
      var (run, f) := router(queue[0], files);
      StartsOfCommand(queue[0], run);
      DrainStartsInOrder(queue[1..], router, f);
      StartsAppend(CommandRecords(queue[0], run), Drain(queue[1..], router, f).0);
      IdsCons(queue);
    }
  }

  /**
   * A command whose agent raises sends no `end_processing`, and the commands after it are still
   * processed, each started in queue order, on the files it left.
   */
  lemma DrainIsolates(c: Command, rest: seq<Command>, router: Router, files: set<string>)
    requires router(c, files).0.raised
    ensures var (records, f) := Process(c, router, files); var all := Drain([c] + rest, router, files).0;
      && EndProcessing(c.id) !in records
      && |records| <= |all| && all == records + Drain(rest, router, f).0
      && Starts(all[|records|..]) == Ids(rest)
  {
    var (records, f) := Process(c, router, files);
    assert ([c] + rest)[1..] == rest;
    CommandRecordsSpec(c, router(c, files).0);
    DrainStartsInOrder(rest, router, f);
    var all := Drain([c] + rest, router, files).0;
    assert all[|records|..] == Drain(rest, router, f).0;
  }

  // ---------------------------------------------------------------------------------------
  // The endpoint and its consumer, interleaved

  /** What happens next on a connection: a message arrives, the consumer takes its turn, or the client leaves. */
  datatype Event = Receive(data: Value) | Tick | Close

  /** How the endpoint stands: reading, ended by the client's leaving, or ended by an exception. */
  datatype Outcome = Open | Closed | Crashed

  datatype SessionState = SessionState(
    records: seq<Record>,     // sent on the socket
    queue: seq<Command>,      // waiting in the connection's queue
    received: seq<Command>,   // every command the endpoint queued
    files: set<string>,
    outcome: Outcome)

  function Initial(files: set<string>): SessionState {
    SessionState([], [], [], files, Open)
  }

  /** `(data["id"], data["prompt"])`, or `None` where indexing the message raises. */
  function AsCommand(data: Value): (r: Option<Command>)
    ensures r.Some? <==> data.JObject? && "id" in data.fields && "prompt" in data.fields
    ensures r.Some? ==> r.value.id == data.fields["id"] && r.value.prompt == data.fields["prompt"]
  {
    if data.JObject? && "id" in data.fields && "prompt" in data.fields then
      Some(Command(data.fields["id"], data.fields["prompt"]))
    else None
  }

  /**
   * One event. Once the endpoint has ended nothing changes: after the client leaves the
   * consumer is cancelled, and after an exception the socket is closed.
   */
  function Step(st: SessionState, e: Event, router: Router): SessionState {
    if !st.outcome.Open? then st
    else
      match e
      case Receive(data) =>
        (match AsCommand(data)
         case None => st.(outcome := Crashed)
         case Some(c) => st.(queue := st.queue + [c], received := st.received + [c]))
      case Tick =>
        if st.queue == [] then st
        else
          var (records, f) := Process(st.queue[0], router, st.files);
          st.(records := st.records + records, queue := st.queue[1..], files := f)
      case Close => st.(outcome := Closed)
  }

  function Session(events: seq<Event>, router: Router, st: SessionState): SessionState
    decreases |events|
  {
    if events == [] then st else Session(events[1..], router, Step(st, events[0], router))
  }

  /** `websocket_endpoint` together with the consumer task it starts. */
  method WebSocketEndpoint(m: ConnectionManager, ws: WebSocket, events: seq<Event>,
                           router: Router, files: set<string>)
    returns (outcome: Outcome, after: set<string>)
    modifies m, ws
    ensures var st := Session(events, router, Initial(files));
      && ws.sent == old(ws.sent) + st.records
      && outcome == st.outcome && after == st.files
      && (ws in m.active <==> !st.outcome.Closed?)
      && (ws in m.active ==> m.active[ws].items == st.queue)
      && m.active - {ws} == old(m.active) - {ws}
  {
    m.Connect(ws);
    var q := m.active[ws];  // the queue the consumer holds
    ghost var st := Initial(files);
    outcome := Open;
    after := files;
    var i := 0;
    while i < |events| && outcome.Open?
      invariant 0 <= i <= |events|
      invariant Session(events, router, Initial(files)) == Session(events[i..], router, st)
      invariant ws.sent == old(ws.sent) + st.records
      invariant q.items == st.queue && after == st.files && outcome == st.outcome
      invariant m.active == if outcome.Closed? then old(m.active) - {ws} else old(m.active)[ws := q]
      invariant fresh(q)
    {
      assert events[i..][1..] == events[i + 1..];
      match events[i] {
        case Receive(data) =>
          var command := AsCommand(data);
          if command.None? {
            outcome := Crashed;
          } else {
            var queue := m.GetQueue(ws);
            if queue.Some? {
              queue.value.Put(command.value);
            }
          }
        case Tick =>
          if q.items != [] {
            after := ConsumeNext(ws, q, router, after);
          }
        case Close =>
          m.Disconnect(ws);
          outcome := Closed;
      }
      st := Step(st, events[i], router);
      i := i + 1;
    }
    SessionEnded(events[i..], router, st);
  }

  /** Once the endpoint has ended, further events change nothing. */
  lemma {:induction false} SessionEnded(events: seq<Event>, router: Router, st: SessionState)
    requires !st.outcome.Open? || events == []
    ensures Session(events, router, st) == st
    decreases |events|
  {
    if events != [] {
      SessionEnded(events[1..], router, st);
    }
  }

  /** The consumer has started the commands received so far in order; the rest wait in the queue in order. */
  ghost predicate InOrder(st: SessionState) {
    Starts(st.records) + Ids(st.queue) == Ids(st.received)
  }

  lemma StepInOrder(st: SessionState, e: Event, router: Router)
    requires InOrder(st)
    ensures InOrder(Step(st, e, router))
  {
    if st.outcome.Open? {
      match e {
        case Receive(data) =>
          if AsCommand(data).Some? {
            ReceiveInOrder(st, AsCommand(data).value);
          }
        case Tick =>
          if st.queue != [] {
            TickInOrder(st, router);
          }
        case Close =>
      }
    }
  }

  /** Queuing a command appends its id to both the queued and the received ids. */
  lemma ReceiveInOrder(st: SessionState, c: Command)
    requires InOrder(st)
    ensures InOrder(st.(queue := st.queue + [c], received := st.received + [c]))
  {
    assert Ids(st.queue + [c]) == Ids(st.queue) + [c.id];
    assert Ids(st.received + [c]) == Ids(st.received) + [c.id];
  }

  /** Processing the head of the queue moves its id from the queued ids to the started ones. */
  lemma TickInOrder(st: SessionState, router: Router)
    requires InOrder(st) && st.outcome.Open? && st.queue != []
    ensures InOrder(Step(st, Tick, router))
  {
    var c := st.queue[0];
    var run := router(c, st.files).0;
    var next := Step(st, Tick, router);
    assert next.records == st.records + CommandRecords(c, run);
    assert next.queue == st.queue[1..] && next.received == st.received;
    StartedNext(st.records, st.queue, run);
  }

  lemma StartedNext(records: seq<Record>, queue: seq<Command>, run: Run)
    requires queue != []
    ensures Starts(records + CommandRecords(queue[0], run)) + Ids(queue[1..])
         == Starts(records) + Ids(queue)
  {
    var c := queue[0];
    StartsOfCommand(c, run);
    StartsMoved(records, CommandRecords(c, run), c.id, Ids(queue[1..]));
    IdsCons(queue);
  }

  lemma StartsMoved(records: seq<Record>, more: seq<Record>, id: Value, rest: seq<Value>)
    requires Starts(more) == [id]
    ensures Starts(records + more) + rest == Starts(records) + ([id] + rest)
  {
    StartsAppend(records, more);
  }

  /** A proof helper: `Ids` of a non-empty queue unfolded once. */
  lemma IdsCons(queue: seq<Command>)
    requires queue != []
    ensures Ids(queue) == [queue[0].id] + Ids(queue[1..])
  {
  }

  /**
   * Commands are started in the order they were received, each at most once, and those not yet
   * started are exactly the ones still waiting in the queue.
   */
  lemma {:induction false} SessionInOrder(events: seq<Event>, router: Router, st: SessionState)
    requires InOrder(st)
    ensures InOrder(Session(events, router, st))
    decreases |events|
  {
    if events != [] {
      StepInOrder(st, events[0], router);
      SessionInOrder(events[1..], router, Step(st, events[0], router));
    }
  }

  /** From a fresh connection, the started ids followed by the queued ids are the received ids. */
  lemma SessionFifo(events: seq<Event>, router: Router, files: set<string>)
    ensures var st := Session(events, router, Initial(files));
      Starts(st.records) + Ids(st.queue) == Ids(st.received)
  {
    assert Starts([]) + Ids([]) == Ids([]);
    SessionInOrder(events, router, Initial(files));
  }

  /** Events after the client has left have no effect. */
  lemma ClosedIsFinal(events: seq<Event>, more: seq<Event>, router: Router, st: SessionState)
    requires !Session(events, router, st).outcome.Open?
    ensures Session(events + more, router, st) == Session(events, router, st)
  {
    SessionAppend(events, more, router, st);
    SessionEnded(more, router, Session(events, router, st));
  }

  lemma {:induction false} SessionAppend(a: seq<Event>, b: seq<Event>, router: Router, st: SessionState)
    ensures Session(a + b, router, st) == Session(b, router, Session(a, router, st))
    decreases |a|
  {
    if a != [] {
      assert (a + b)[1..] == a[1..] + b;
      SessionAppend(a[1..], b, router, Step(st, a[0], router));
    } else {
      assert a + b == b;
    }
  }

  /**
   * With the assistant's router, a prompt that is not a string makes the keyword test raise:
   * the command gets its `start_processing` and nothing else, and the files are untouched.
   */
  lemma NonStringPrompt(c: Command, worlds: Command -> World, files: set<string>)
    requires !c.prompt.JString?
    ensures Process(c, Deployed(worlds), files) == ([StartProcessing(c.id)], files)
  {
    assert Deployed(worlds)(c, files) == RouteSpec(c.prompt, worlds(c), files);
    assert RouteSpec(c.prompt, worlds(c), files) == (Run([], true), files);
    assert Render(c.id, []) == [];
    assert CommandRecords(c, Run([], true)) == [StartProcessing(c.id)];
  }

  /**
   * With the assistant's router, a command with a string prompt always ends with its
   * `end_processing`, except when it goes to the conversational agent and the model
   * cannot be created.
   */
  lemma StringPromptEnds(c: Command, worlds: Command -> World, files: set<string>)
    requires c.prompt.JString?
    ensures var records := Process(c, Deployed(worlds), files).0;
      (records[|records| - 1] == EndProcessing(c.id)) <==>
        !(Selected(c.prompt.s) == Conversational && worlds(c).gemini.ClientFailed?)
  {
    var (run, _) := RouteSpec(c.prompt, worlds(c), files);
    var a := Selected(c.prompt.s);
    if a == DataScience {
      DataScienceRunShape(c.prompt.s, worlds(c), files);
    } else if a == Conversational && worlds(c).gemini.Reply? {
      ConversationalRunSpec(worlds(c).gemini.chunks, worlds(c).gemini.failure);
    }
    CommandRecordsSpec(c, run);
    var records := CommandRecords(c, run);
    if run.raised {
      forall x | x in records ensures x != EndProcessing(c.id) {}
      assert records[|records| - 1] in records;
    }
  }
}
