/** Many tasks on one pipe (`src/a2a_stdio.rs`, `src/external_agent.rs`).

The server answers every request from its own spawned job; all jobs send into one
queue that a single writer drains. The client reads the pipe and keeps the frames
with its own request id. The step system below interleaves requests, jobs and the
writer in any order; the theorem is that a caller gets its own task's answer.
*/
module Multiplex {
  import opened Text
  import opened A2a
  import opened AnswerStream

  datatype Response =
    | AgentCard(id: string)
    | TaskAssigned(id: string, taskId: string, contextId: string)
    | Event(id: string, event: StreamResponse)
    | Done(id: string)
    | Error(id: string, message: string)

  // One item of an executor's result stream.
  datatype Item = Yield(event: StreamResponse) | Fail(message: string)

  datatype Request =
    | Card(id: string)
    | MessageStream(id: string, taskId: string, contextId: string, items: seq<Item>)
    | Cancel(id: string, items: seq<Item>)
    | Shutdown(id: string)

  // A spawned job: what it will send, and how much of it is in the queue.
  datatype Job = Job(script: seq<Response>, sent: nat)

  datatype Server = Server(reading: bool, jobs: map<string, Job>, queue: seq<Response>, written: nat)

  datatype Step = Receive(request: Request) | Advance(id: string) | Write

  // Events up to the first failure, then one closing response.
  function StreamScript(id: string, items: seq<Item>): seq<Response> {
    if items == [] then [Response.Done(id)]
    else
      match items[0]
      case Yield(event) => [Event(id, event)] + StreamScript(id, items[1..])
      case Fail(message) => [Response.Error(id, message)]
  }

  function Script(request: Request): seq<Response> {
    match request
    case Card(id) => [AgentCard(id)]
    case MessageStream(id, taskId, contextId, items) => [TaskAssigned(id, taskId, contextId)] + StreamScript(id, items)
    case Cancel(id, items) => StreamScript(id, items)
    case Shutdown(id) => [Response.Done(id)]
  }

  const Start := Server(true, map[], [], 0)

  predicate Enabled(server: Server, step: Step) {
    match step
    case Receive(request) => server.reading && request.id !in server.jobs
    case Advance(id) => id in server.jobs && server.jobs[id].sent < |server.jobs[id].script|
    case Write => server.written < |server.queue|
  }

  // The reader answers a card request and a shutdown itself; it spawns a job for the
  // others. A shutdown stops the reading, not the jobs.
  function Next(server: Server, step: Step): Server
    requires Enabled(server, step)
  {
    match step
    case Receive(request) =>
      var script := Script(request);
      if request.Card? || request.Shutdown? then
        Server(!request.Shutdown?, server.jobs[request.id := Job(script, |script|)], server.queue + script, server.written)
      else server.(jobs := server.jobs[request.id := Job(script, 0)])
    case Advance(id) =>
      var job := server.jobs[id];
      server.(jobs := server.jobs[id := job.(sent := job.sent + 1)], queue := server.queue + [job.script[job.sent]])
    case Write => server.(written := server.written + 1)
  }

  function Run(server: Server, steps: seq<Step>): Option<Server> {
    if steps == [] then Some(server)
    else
      var before := Run(server, steps[..|steps| - 1]);
      var step := steps[|steps| - 1];
      if before.Some? && Enabled(before.value, step) then Some(Next(before.value, step)) else None
  }

  // The pipe: what the writer has written of the queue.
  function Output(server: Server): seq<Response> {
    if server.written <= |server.queue| then server.queue[..server.written] else server.queue
  }

  // The responses to one request id.
  function Mine(responses: seq<Response>, id: string): seq<Response> {
    if responses == [] then []
    else
      var front, last := Mine(responses[..|responses| - 1], id), responses[|responses| - 1];
      if last.id == id then front + [last] else front
  }

  lemma {:induction false} MineConcat(a: seq<Response>, b: seq<Response>, id: string)
    ensures Mine(a + b, id) == Mine(a, id) + Mine(b, id)
  {
    if b == [] {
      assert a + b == a;
    } else {
      assert (a + b)[..|a + b| - 1] == a + b[..|b| - 1];
      MineConcat(a, b[..|b| - 1], id);
    }
  }

  lemma MineOne(response: Response, id: string)
    ensures Mine([response], id) == if response.id == id then [response] else []
  {
    assert [response][..0] == [];
  }

  lemma {:induction false} ScriptIds(id: string, items: seq<Item>)
    ensures forall r :: r in StreamScript(id, items) ==> r.id == id
  {
    if items != [] && items[0].Yield? {
      ScriptIds(id, items[1..]);
    }
  }

  // The shape of one answer: assigned first, then events, then exactly one Done or
  // Error, all with the request's id.
  ghost predicate WellFormedAnswer(responses: seq<Response>, id: string) {
    && |responses| >= 2
    && responses[0].TaskAssigned?
    && (forall i :: 0 < i < |responses| - 1 ==> responses[i].Event?)
    && (responses[|responses| - 1].Done? || responses[|responses| - 1].Error?)
    && (forall i :: 0 <= i < |responses| ==> responses[i].id == id)
  }

  lemma {:induction false} StreamScriptShape(id: string, items: seq<Item>)
    ensures
      var script := StreamScript(id, items);
      && script != []
      && (forall i :: 0 <= i < |script| - 1 ==> script[i].Event?)
      && (script[|script| - 1].Done? || script[|script| - 1].Error?)
      && (forall i :: 0 <= i < |script| ==> script[i].id == id)
  {
    if items != [] && items[0].Yield? {
      StreamScriptShape(id, items[1..]);
    }
  }

  // ---------------------------------------------------------------------------
  // What every interleaving keeps
  // ---------------------------------------------------------------------------

  ghost predicate Inv(server: Server) {
    && server.written <= |server.queue|
    && (forall i :: 0 <= i < |server.queue| ==> server.queue[i].id in server.jobs)
    && (forall id :: id in server.jobs ==>
          && server.jobs[id].sent <= |server.jobs[id].script|
          && (forall i :: 0 <= i < |server.jobs[id].script| ==> server.jobs[id].script[i].id == id)
          && Mine(server.queue, id) == server.jobs[id].script[..server.jobs[id].sent])
  }

  lemma {:induction false} MineNone(responses: seq<Response>, id: string)
    requires forall i :: 0 <= i < |responses| ==> responses[i].id != id
    ensures Mine(responses, id) == []
  {
    if responses != [] {
      MineNone(responses[..|responses| - 1], id);
    }
  }

  lemma ReceiveKeepsInv(server: Server, request: Request)
    requires Inv(server) && Enabled(server, Receive(request))
    ensures Inv(Next(server, Receive(request)))
  {
    hide StreamScript, Mine;
    var script := Script(request);
    MineNone(server.queue, request.id);
    if request.MessageStream? || request.Cancel? {
      StreamScriptShape(request.id, request.items);
    } else {
      MineOne(script[0], request.id);
      forall id ensures Mine(server.queue + script, id) == Mine(server.queue, id) + if id == request.id then script else [] {
        MineConcat(server.queue, script, id);
        MineOne(script[0], id);
      }
      assert script[..|script|] == script;
    }
    assert script[..0] == [];
  }

  lemma AdvanceKeepsInv(server: Server, job: string)
    requires Inv(server) && Enabled(server, Advance(job))
    ensures Inv(Next(server, Advance(job)))
  {
    hide Mine;
    var script, sent := server.jobs[job].script, server.jobs[job].sent;
    forall id ensures Mine(server.queue + [script[sent]], id)
                   == Mine(server.queue, id) + if id == job then [script[sent]] else []
    {
      MineConcat(server.queue, [script[sent]], id);
      MineOne(script[sent], id);
    }
    assert script[..sent] + [script[sent]] == script[..sent + 1];
  }

  lemma {:induction false} EveryRun(steps: seq<Step>)
    requires Run(Start, steps).Some?
    ensures Inv(Run(Start, steps).value)
  {
    hide Mine, Script;
    if steps != [] {
      EveryRun(steps[..|steps| - 1]);
      var before, step := Run(Start, steps[..|steps| - 1]).value, steps[|steps| - 1];
      match step
      case Receive(request) => ReceiveKeepsInv(before, request);
      case Advance(id) => AdvanceKeepsInv(before, id);
      case Write =>
    }
  }

  predicate Drained(server: Server) {
    && server.written == |server.queue|
    && forall id :: id in server.jobs ==> server.jobs[id].sent == |server.jobs[id].script|
  }

  // A job's script never changes once its request was received.
  lemma {:induction false} ScriptOf(steps: seq<Step>, request: Request)
    requires Run(Start, steps).Some? && Receive(request) in steps
    ensures
      var jobs := Run(Start, steps).value.jobs;
      request.id in jobs && jobs[request.id].script == Script(request)
  {
    hide Script;
    var front, last := steps[..|steps| - 1], steps[|steps| - 1];
    assert steps == front + [last];
    if Receive(request) in front {
      ScriptOf(front, request);
    }
  }

  // For any interleaving, the part of the pipe that answers one message-stream request
  // is a prefix of its answer, and the whole answer once everything is written.
  lemma AnswersArePrefixes(steps: seq<Step>, request: Request)
    requires Run(Start, steps).Some? && Receive(request) in steps && request.MessageStream?
    ensures
      var server := Run(Start, steps).value;
      && WellFormedAnswer(Script(request), request.id)
      && Mine(Output(server), request.id) <= Script(request)
      && (Drained(server) ==> Mine(Output(server), request.id) == Script(request))
  {
    hide Run, StreamScript, Mine;
    var server := Run(Start, steps).value;
    EveryRun(steps);
    ScriptOf(steps, request);
    StreamScriptShape(request.id, request.items);
    var rest := server.queue[server.written..];
    assert server.queue == Output(server) + rest;
    MineConcat(Output(server), rest, request.id);
    if Drained(server) {
      assert rest == [] && server.queue == Output(server);
    }
  }

  // A server that has sent `sent` responses of its only job and written `written`.
  function Serving(request: Request, sent: nat, written: nat): Server
    requires sent <= |Script(request)|
  {
    Server(true, map[request.id := Job(Script(request), sent)], Script(request)[..sent], written)
  }

  lemma {:induction false} CanServe(request: Request, sent: nat, written: nat) returns (steps: seq<Step>)
    requires request.MessageStream? && written <= sent <= |Script(request)|
    ensures Run(Start, steps) == Some(Serving(request, sent, written)) && Receive(request) in steps
    decreases sent + written
  {
    hide Script;
    if sent == 0 {
      steps := [Receive(request)];
      assert steps[..0] == [] && Run(Start, []) == Some(Start);
      assert Next(Start, Receive(request)) == Serving(request, 0, 0);
    } else {
      var step: Step;
      if written == 0 {
        steps := CanServe(request, sent - 1, 0);
        step := Advance(request.id);
        assert Next(Serving(request, sent - 1, 0), step) == Serving(request, sent, 0);
      } else {
        steps := CanServe(request, sent, written - 1);
        step := Write;
      }
      assert (steps + [step])[..|steps|] == steps;
      steps := steps + [step];
    }
  }

  // A server takes a request from the start, and can answer it whole.
  lemma RequestCanBeAnswered(request: Request) returns (steps: seq<Step>)
    requires request.MessageStream?
    ensures Run(Start, steps).Some? && Receive(request) in steps && Drained(Run(Start, steps).value)
    ensures Mine(Output(Run(Start, steps).value), request.id) == Script(request)
  {
    var n := |Script(request)|;
    steps := CanServe(request, n, n);
    AnswersArePrefixes(steps, request);
  }

  // ---------------------------------------------------------------------------
  // The caller
  // ---------------------------------------------------------------------------

  datatype AskResult = Answer(text: string) | EndedIn(state: TaskState) | NoAnswer | Refused(message: string) | Exited

  function Conclude(collected: Collected): AskResult {
    if collected.terminal.Some? && collected.terminal.value != Completed then EndedIn(collected.terminal.value)
    else if collected.answer == "" then NoAnswer
    else Answer(collected.answer)
  }

  // The result of reading `frames` after collecting some events of request `id`.
  function AskFrom(frames: seq<Response>, id: string, collected: Collected): AskResult {
    if frames == [] then Exited
    else
      var frame, rest := frames[0], frames[1..];
      if frame.id != id then AskFrom(rest, id, collected)
      else
        match frame
        case Event(_, event) => AskFrom(rest, id, Collect(collected, event))
        case Done(_) => Conclude(collected)
        case Error(_, message) => Refused(message)
        case _ => AskFrom(rest, id, collected)
  }

  // The response loop of `ask`, over the frames read from the pipe until it closes.
  method Ask(frames: seq<Response>, id: string) returns (result: AskResult)
    ensures result == AskFrom(frames, id, Collected("", None))
  {
    hide Collect, Conclude;
    var collector := new Collector();
    var next := 0;
    while next < |frames|
      invariant next <= |frames|
      invariant AskFrom(frames[next..], id, collector.View()) == AskFrom(frames, id, Collected("", None))
    {
      var response := frames[next];
      assert frames[next..][0] == response && frames[next..][1..] == frames[next + 1..];
      next := next + 1;
      if response.Event? && response.id == id {
        collector.CollectEvent(response.event);
      } else if response.Done? && response.id == id {
        result := ConcludeTask(collector);
        return;
      } else if response.Error? && response.id == id {
        return Refused(response.message);
      }
    }
    return Exited;
  }

  method ConcludeTask(collector: Collector) returns (result: AskResult)
    ensures result == Conclude(collector.View())
  {
    if collector.terminal.Some? {
      if collector.terminal.value != Completed {
        return EndedIn(collector.terminal.value);
      }
    }
    if collector.answer == "" {
      return NoAnswer;
    }
    return Answer(collector.answer);
  }

  lemma {:induction false} MineHead(frames: seq<Response>, id: string)
    requires frames != []
    ensures Mine(frames, id) == (if frames[0].id == id then [frames[0]] else []) + Mine(frames[1..], id)
  {
    hide Mine;
    assert frames == [frames[0]] + frames[1..];
    MineConcat([frames[0]], frames[1..], id);
    MineOne(frames[0], id);
  }

  // Other tasks' frames make no difference to a caller.
  lemma {:induction false} AskIgnoresOthers(frames: seq<Response>, id: string, collected: Collected)
    ensures AskFrom(frames, id, collected) == AskFrom(Mine(frames, id), id, collected)
  {
    hide Mine, Collect, Conclude;
    if frames == [] {
      MineNone(frames, id);
    } else {
      var rest := frames[1..];
      MineHead(frames, id);
      if frames[0].id == id {
        assert Mine(frames, id)[1..] == Mine(rest, id);
        AskIgnoresOthers(rest, id, if frames[0].Event? then Collect(collected, frames[0].event) else collected);
      } else {
        assert Mine(frames, id) == Mine(rest, id);
        AskIgnoresOthers(rest, id, collected);
      }
    }
  }

  function Yields(events: seq<StreamResponse>): (items: seq<Item>)
    ensures |items| == |events|
    ensures forall i :: 0 <= i < |items| ==> items[i] == Yield(events[i])
  {
    seq(|events|, i requires 0 <= i < |events| => Yield(events[i]))
  }

  lemma {:induction false} AskFoldsEvents(id: string, events: seq<StreamResponse>, n: nat)
    requires n <= |events|
    ensures AskFrom(StreamScript(id, Yields(events[n..])), id, CollectAll(events[..n])) == Conclude(CollectAll(events))
    decreases |events| - n
  {
    hide Collect, Conclude;
    if n == |events| {
      assert events[..n] == events;
    } else {
      var script := StreamScript(id, Yields(events[n..]));
      assert Yields(events[n..])[1..] == Yields(events[n + 1..]);
      assert script == [Event(id, events[n])] + StreamScript(id, Yields(events[n + 1..]));
      assert events[..n + 1][..n] == events[..n];
      AskFoldsEvents(id, events, n + 1);
    }
  }

  lemma {:induction false} UnfinishedAnswerExits(frames: seq<Response>, id: string, collected: Collected)
    requires forall i :: 0 <= i < |frames| ==> !frames[i].Done? && !frames[i].Error?
    ensures AskFrom(frames, id, collected) == Exited
  {
    hide Collect;
    if frames != [] {
      var mine := frames[0].id == id && frames[0].Event?;
      UnfinishedAnswerExits(frames[1..], id, if mine then Collect(collected, frames[0].event) else collected);
    }
  }

  // However far the server got and whatever else shared the pipe, a caller gets what
  // folding its own task's events gives, or notices that the answer is incomplete.
  lemma CallerGetsItsOwnAnswer(steps: seq<Step>, id: string, taskId: string, contextId: string, events: seq<StreamResponse>)
    requires Run(Start, steps).Some?
    requires Receive(MessageStream(id, taskId, contextId, Yields(events))) in steps
    ensures
      var result := AskFrom(Output(Run(Start, steps).value), id, Collected("", None));
      && (result == Conclude(CollectAll(events)) || result == Exited)
      && (Drained(Run(Start, steps).value) ==> result == Conclude(CollectAll(events)))
  {
    hide Run, Mine, Collect, Conclude, StreamScript, Output, Drained;
    var request := MessageStream(id, taskId, contextId, Yields(events));
    var output, script := Output(Run(Start, steps).value), Script(request);
    AnswersArePrefixes(steps, request);
    AskIgnoresOthers(output, id, Collected("", None));
    if Mine(output, id) == script {
      assert script[0].id == id && script[1..] == StreamScript(id, Yields(events));
      assert events[0..] == events;
      assert events[..0] == [];
      AskFoldsEvents(id, events, 0);
    } else {
      UnfinishedAnswerExits(Mine(output, id), id, Collected("", None));
    }
  }
}
