/** The answer of a delegated task, from executor to caller.

Two executors (`src/a2a_channel.rs`) turn a run's events into a response stream; a
caller (`src/external_agent.rs`) folds the stream back into the answer text. The
executors and the fold keep the source's loops; the theorem is that the fold of a
whole stream is the server's final text, however it was cut and interleaved.
*/
module AnswerStream {
  import opened Text
  import opened A2a

  const ANSWER_ARTIFACT_ID := "answer"
  const ACTIVITY_ARTIFACT_ID := "remi-activity"

  datatype ExecutorContext = ExecutorContext(taskId: string, contextId: string, messageId: string,
                                             storedHistory: seq<string>)

  // ---------------------------------------------------------------------------
  // The caller
  // ---------------------------------------------------------------------------

  function PartsText(parts: seq<Part>): string {
    if parts == [] then ""
    else
      var last := parts[|parts| - 1];
      PartsText(parts[..|parts| - 1]) + if last.TextPart? then last.text else ""
  }

  function ArtifactsText(artifacts: seq<Artifact>): string {
    if artifacts == [] then ""
    else ArtifactsText(artifacts[..|artifacts| - 1]) + PartsText(artifacts[|artifacts| - 1].parts)
  }

  datatype Collected = Collected(answer: string, terminal: Option<TaskState>)

  function Collect(sofar: Collected, event: StreamResponse): Collected {
    match event
    case ArtifactUpdate(artifact, _, _) => sofar.(answer := sofar.answer + PartsText(artifact.parts))
    case TaskSnapshot(task) =>
      Collected(
        if sofar.answer == "" && task.artifacts.Some? then ArtifactsText(task.artifacts.value) else sofar.answer,
        Some(task.status.state))
    case Message(parts) => sofar.(answer := sofar.answer + PartsText(parts))
    case StatusUpdate(status) => if IsTerminal(status.state) then sofar.(terminal := Some(status.state)) else sofar
  }

  function CollectAll(events: seq<StreamResponse>): Collected {
    if events == [] then Collected("", None)
    else Collect(CollectAll(events[..|events| - 1]), events[|events| - 1])
  }

  // The text parts, one after another.
  ghost predicate IsTextOf(parts: seq<Part>, text: string) {
    exists texts :: Selected(parts, texts, (part: Part) => if part.TextPart? then Some(part.text) else None)
                 && text == Join(texts)
  }

  // The texts of the artifacts, one after another.
  ghost predicate IsTextOfAll(artifacts: seq<Artifact>, text: string)
    decreases |artifacts|
  {
    if artifacts == [] then text == ""
    else exists n: nat :: n <= |text| && IsTextOf(artifacts[|artifacts| - 1].parts, text[n..])
                       && IsTextOfAll(artifacts[..|artifacts| - 1], text[..n])
  }

  // A message or an artifact adds its text; a snapshot has the last word on the state,
  // and on the answer only if there is none; a status counts only if it is final.
  ghost predicate Folds(before: Collected, event: StreamResponse, after: Collected) {
    match event
    case ArtifactUpdate(artifact, _, _) => AddsText(before, artifact.parts, after)
    case Message(parts) => AddsText(before, parts, after)
    case TaskSnapshot(task) =>
      && after.terminal == Some(task.status.state)
      && (if before.answer == "" && task.artifacts.Some? then IsTextOfAll(task.artifacts.value, after.answer)
          else after.answer == before.answer)
    case StatusUpdate(status) =>
      after == if status.state in {Completed, Failed, Canceled, Rejected} then before.(terminal := Some(status.state))
               else before
  }

  ghost predicate AddsText(before: Collected, parts: seq<Part>, after: Collected) {
    && after.terminal == before.terminal && before.answer <= after.answer
    && IsTextOf(parts, after.answer[|before.answer|..])
  }

  lemma {:induction false} PartsTextIs(parts: seq<Part>)
    ensures IsTextOf(parts, PartsText(parts))
  {
    hide Join, Selected;
    var image := (part: Part) => if part.TextPart? then Some(part.text) else None;
    if parts == [] {
      SelectedNothing(image);
      NothingJoined();
      var none: seq<string> := [];
      assert PartsText(parts) == Join(none);
    } else {
      var front, last := parts[..|parts| - 1], parts[|parts| - 1];
      PartsTextIs(front);
      var texts :| Selected(front, texts, image) && PartsText(front) == Join(texts);
      SelectedSnoc(parts, texts, image);
      if last.TextPart? {
        JoinSnoc(texts, last.text);
      } else {
        assert PartsText(front) + "" == PartsText(front);
      }
    }
  }

  lemma NothingJoined()
    ensures Join([]) == ""
  {
  }

  lemma {:induction false} ArtifactsTextIs(artifacts: seq<Artifact>)
    ensures IsTextOfAll(artifacts, ArtifactsText(artifacts))
  {
    hide IsTextOf, PartsText;
    if artifacts != [] {
      var front, last := artifacts[..|artifacts| - 1], artifacts[|artifacts| - 1];
      var text, n := ArtifactsText(artifacts), |ArtifactsText(front)|;
      ArtifactsTextIs(front);
      PartsTextIs(last.parts);
      assert text[..n] == ArtifactsText(front) && text[n..] == PartsText(last.parts);
    }
  }

  lemma CollectFolds(before: Collected, event: StreamResponse)
    ensures Folds(before, event, Collect(before, event))
  {
    hide IsTextOf, IsTextOfAll, PartsText, ArtifactsText;
    match event {
      case ArtifactUpdate(artifact, _, _) =>
        PartsTextIs(artifact.parts);
        assert (before.answer + PartsText(artifact.parts))[|before.answer|..] == PartsText(artifact.parts);
      case Message(parts) =>
        PartsTextIs(parts);
        assert (before.answer + PartsText(parts))[|before.answer|..] == PartsText(parts);
      case TaskSnapshot(task) =>
        if task.artifacts.Some? {
          ArtifactsTextIs(task.artifacts.value);
        }
      case StatusUpdate(_) =>
    }
  }

  class Collector {
    var answer: string
    var terminal: Option<TaskState>

    constructor ()
      ensures View() == Collected("", None)
    {
      answer, terminal := "", None;
    }

    function View(): Collected
      reads this
    {
      Collected(answer, terminal)
    }

    method AppendParts(parts: seq<Part>)
      modifies this`answer
      ensures answer == old(answer) + PartsText(parts)
    {
      for i := 0 to |parts|
        invariant answer == old(answer) + PartsText(parts[..i])
      {
        assert parts[..i + 1][..i] == parts[..i];
        if parts[i].TextPart? {
          answer := answer + parts[i].text;
        }
      }
      assert parts[..|parts|] == parts;
    }

    method CollectEvent(event: StreamResponse)
      modifies this
      ensures View() == Collect(old(View()), event) && Folds(old(View()), event, View())
    {
      CollectFolds(View(), event);
      hide Folds;
      match event
      case ArtifactUpdate(artifact, _, _) => AppendParts(artifact.parts);
      case TaskSnapshot(task) =>
        terminal := Some(task.status.state);
        if answer == "" {
          if task.artifacts.Some? {
            var artifacts := task.artifacts.value;
            for i := 0 to |artifacts|
              invariant answer == ArtifactsText(artifacts[..i])
              invariant terminal == Some(task.status.state)
            {
              assert artifacts[..i + 1][..i] == artifacts[..i];
              AppendParts(artifacts[i].parts);
            }
            assert artifacts[..|artifacts|] == artifacts;
          }
        }
      case Message(parts) => AppendParts(parts);
      case StatusUpdate(status) =>
        if IsTerminal(status.state) {
          terminal := Some(status.state);
        }
    }
  }

  lemma CollectSnoc(events: seq<StreamResponse>, event: StreamResponse)
    ensures CollectAll(events + [event]) == Collect(CollectAll(events), event)
  {
    hide Collect;
    assert (events + [event])[..|events|] == events;
  }

  lemma OneTextPart(text: string)
    ensures PartsText([TextPart(text)]) == text
  {
    assert [TextPart(text)][..0] == [];
  }

  // ---------------------------------------------------------------------------
  // What the executors emit
  // ---------------------------------------------------------------------------

  function StatusEvent(state: TaskState, message: Option<string>): StreamResponse {
    StatusUpdate(TaskStatus(state, message))
  }

  function ArtifactEvent(text: string, append: bool, lastChunk: bool): StreamResponse {
    ArtifactUpdate(Artifact(ANSWER_ARTIFACT_ID, [TextPart(text)]), append, lastChunk)
  }

  function ActivityEvent(data: string): StreamResponse {
    ArtifactUpdate(Artifact(ACTIVITY_ARTIFACT_ID, [DataPart(data)]), false, false)
  }

  function CompletedTask(ctx: ExecutorContext, text: string): StreamResponse {
    TaskSnapshot(Task(
      ctx.taskId, ctx.contextId, TaskStatus(Completed, None),
      if text == "" then None else Some([Artifact(ANSWER_ARTIFACT_ID, [TextPart(text)])]),
      ctx.storedHistory + if ctx.messageId in ctx.storedHistory then [] else [ctx.messageId]))
  }

  lemma CollectExecutorEvents(ctx: ExecutorContext, sofar: Collected, text: string, append: bool, lastChunk: bool,
                              data: string)
    ensures Collect(sofar, ArtifactEvent(text, append, lastChunk)) == sofar.(answer := sofar.answer + text)
    ensures Collect(sofar, ActivityEvent(data)) == sofar
    ensures sofar.answer == "" || sofar.answer == text ==>
      Collect(sofar, CompletedTask(ctx, text)) == Collected(text, Some(Completed))
  {
    OneTextPart(text);
    assert [DataPart(data)][..0] == [];
    var artifact := Artifact(ANSWER_ARTIFACT_ID, [TextPart(text)]);
    assert [artifact][..0] == [];
    assert ArtifactsText([artifact]) == text;
  }

  // A piece of the streamed answer, with its flags.
  datatype Chunk = Chunk(text: string, append: bool, lastChunk: bool)

  function AnswerChunks(events: seq<StreamResponse>): seq<Chunk> {
    if events == [] then []
    else
      var front, last := AnswerChunks(events[..|events| - 1]), events[|events| - 1];
      if last.ArtifactUpdate? && last.artifact.artifactId == ANSWER_ARTIFACT_ID
      then front + [Chunk(PartsText(last.artifact.parts), last.append, last.lastChunk)] else front
  }

  lemma ChunksSnoc(events: seq<StreamResponse>, event: StreamResponse)
    ensures AnswerChunks(events + [event]) == AnswerChunks(events) +
      if event.ArtifactUpdate? && event.artifact.artifactId == ANSWER_ARTIFACT_ID
      then [Chunk(PartsText(event.artifact.parts), event.append, event.lastChunk)] else []
  {
    assert (events + [event])[..|events|] == events;
  }

  // The first `n` pieces of an answer, the last of them possibly marked as such.
  function Chunked(texts: seq<string>, n: nat, marked: bool): (chunks: seq<Chunk>)
    requires n <= |texts|
    ensures |chunks| == n
    ensures forall i :: 0 <= i < n ==> chunks[i] == Chunk(texts[i], i > 0, marked && i == n - 1)
  {
    seq(n, i requires 0 <= i < n => Chunk(texts[i], i > 0, marked && i == n - 1))
  }

  // ---------------------------------------------------------------------------
  // The chunking executor (`RemiA2aExecutor`)
  // ---------------------------------------------------------------------------

  datatype RunEvent =
    | TextDelta(delta: Option<string>)
    | Cancelled
    | Error(message: Option<string>)
    | RunFinished(status: Option<string>)
    | OtherEvent(kind: string)

  // A run is read up to its first "run_finished".
  function Consumed(events: seq<RunEvent>): (consumed: seq<RunEvent>)
    ensures consumed <= events
    ensures forall i :: 0 <= i < |consumed| - 1 ==> !consumed[i].RunFinished?
    ensures |consumed| < |events| ==> consumed != [] && consumed[|consumed| - 1].RunFinished?
  {
    if events == [] then []
    else if events[0].RunFinished? then [events[0]]
    else [events[0]] + Consumed(events[1..])
  }

  predicate HasText(event: RunEvent) {
    event.TextDelta? && event.delta.Some? && event.delta.value != ""
  }

  function Deltas(events: seq<RunEvent>): seq<string> {
    if events == [] then []
    else
      var front, last := Deltas(events[..|events| - 1]), events[|events| - 1];
      if HasText(last) then front + [last.delta.value] else front
  }

  function FinishedState(status: string): (state: TaskState)
    ensures IsTerminal(state)
  {
    if status == "cancelled" || status == "interrupted" then Canceled
    else if status == "error" then Failed
    else Completed
  }

  // The last event that says how the run ended decides.
  function EndState(events: seq<RunEvent>): (state: Option<TaskState>)
    ensures state.Some? ==> IsTerminal(state.value)
  {
    if events == [] then None
    else
      match events[|events| - 1]
      case Cancelled => Some(Canceled)
      case Error(_) => Some(Failed)
      case RunFinished(status) =>
        Some(FinishedState(if status.Some? then status.value else "completed"))
      case _ => EndState(events[..|events| - 1])
  }

  function ErrorMessage(events: seq<RunEvent>): Option<string> {
    if events == [] then None
    else
      var last := events[|events| - 1];
      if last.Error? then last.message else ErrorMessage(events[..|events| - 1])
  }

  const NO_TERMINAL_EVENT := "remi-cat run ended without a terminal event"

  function FinalState(events: seq<RunEvent>): TaskState {
    var state := EndState(Consumed(events));
    if state.Some? then state.value else Failed
  }

  function FinalMessage(events: seq<RunEvent>): Option<string> {
    var message := ErrorMessage(Consumed(events));
    if message.None? && FinalState(events) == Failed then Some(NO_TERMINAL_EVENT) else message
  }

  // What is emitted while events are read: each as an activity, and after a delta the
  // one before it.
  function Emitted(events: seq<RunEvent>, activity: RunEvent -> string): seq<StreamResponse> {
    if events == [] then []
    else
      var front, last := events[..|events| - 1], events[|events| - 1];
      var deltas := Deltas(front);
      Emitted(front, activity) + [ActivityEvent(activity(last))]
      + if HasText(last) && deltas != [] then [ArtifactEvent(deltas[|deltas| - 1], |deltas| > 1, false)] else []
  }

  lemma ReadOneMore(events: seq<RunEvent>, i: nat, activity: RunEvent -> string)
    requires i < |events|
    ensures
      var before, after, event := Deltas(events[..i]), Deltas(events[..i + 1]), events[i];
      && after == (if HasText(event) then before + [event.delta.value] else before)
      && Emitted(events[..i + 1], activity)
         == Emitted(events[..i], activity) + [ActivityEvent(activity(event))]
            + if HasText(event) && before != [] then [ArtifactEvent(before[|before| - 1], |before| > 1, false)] else []
  {
    hide ActivityEvent, ArtifactEvent;
    assert events[..i + 1][..i] == events[..i];
  }

  lemma ReadNothing(activity: RunEvent -> string)
    ensures Deltas([]) == [] && Emitted([], activity) == [] && Join([]) == ""
    ensures EndState([]) == None && ErrorMessage([]) == None
  {
  }

  // The nonempty texts of the deltas, in order.
  ghost predicate TextsOf(events: seq<RunEvent>, texts: seq<string>) {
    Selected(events, texts, (event: RunEvent) =>
      if event.TextDelta? && event.delta.Some? && event.delta.value != "" then Some(event.delta.value) else None)
  }

  lemma {:induction false} DeltasAreTexts(events: seq<RunEvent>)
    ensures TextsOf(events, Deltas(events))
  {
    var image := (event: RunEvent) =>
      if event.TextDelta? && event.delta.Some? && event.delta.value != "" then Some(event.delta.value) else None;
    if events == [] {
      SelectedNothing(image);
    } else {
      DeltasAreTexts(events[..|events| - 1]);
      SelectedSnoc(events, Deltas(events[..|events| - 1]), image);
    }
  }

  predicate SaysEnd(event: RunEvent) {
    event.Cancelled? || event.Error?
  }

  ghost predicate LastToSay(read: seq<RunEvent>, i: int) {
    0 <= i < |read| && SaysEnd(read[i]) && forall k :: i < k < |read| ==> !SaysEnd(read[k])
  }

  // The state that the events read say the run ended in.
  ghost predicate EndsIn(read: seq<RunEvent>, state: TaskState) {
    if read != [] && read[|read| - 1].RunFinished? then
      var status := read[|read| - 1].status;
      state == if status == Some("error") then Failed
               else if status == Some("cancelled") || status == Some("interrupted") then Canceled
               else Completed
    else
      && (forall i :: LastToSay(read, i) ==> state == if read[i].Cancelled? then Canceled else Failed)
      && ((forall i :: 0 <= i < |read| ==> !SaysEnd(read[i])) ==> state == Failed)
  }

  ghost predicate LastError(read: seq<RunEvent>, i: int) {
    0 <= i < |read| && read[i].Error? && forall k :: i < k < |read| ==> !read[k].Error?
  }

  // The message of the last error, if any, or that the run did not say how it ended.
  ghost predicate Explains(read: seq<RunEvent>, state: TaskState, message: Option<string>) {
    && (forall i :: LastError(read, i) ==>
          message == if read[i].message.None? && state == Failed
                     then Some("remi-cat run ended without a terminal event") else read[i].message)
    && ((forall i :: 0 <= i < |read| ==> !read[i].Error?) ==>
          message == if state == Failed then Some("remi-cat run ended without a terminal event") else None)
  }

  lemma {:induction false} EndStateIsLast(read: seq<RunEvent>)
    requires forall k :: 0 <= k < |read| ==> !read[k].RunFinished?
    ensures forall i :: LastToSay(read, i) ==> EndState(read) == Some(if read[i].Cancelled? then Canceled else Failed)
    ensures (forall i :: 0 <= i < |read| ==> !SaysEnd(read[i])) ==> EndState(read) == None
  {
    if read != [] && !SaysEnd(read[|read| - 1]) {
      var front := read[..|read| - 1];
      EndStateIsLast(front);
      forall i | LastToSay(read, i) ensures EndState(read) == Some(if read[i].Cancelled? then Canceled else Failed) {
        assert LastToSay(front, i) && front[i] == read[i];
      }
      if forall i :: 0 <= i < |read| ==> !SaysEnd(read[i]) {
        assert forall i :: 0 <= i < |front| ==> !SaysEnd(front[i]);
      }
    }
  }

  lemma EndStateDecides(read: seq<RunEvent>)
    requires forall k :: 0 <= k < |read| - 1 ==> !read[k].RunFinished?
    ensures EndsIn(read, if EndState(read).Some? then EndState(read).value else Failed)
  {
    if read == [] || !read[|read| - 1].RunFinished? {
      hide EndState, LastToSay;
      EndStateIsLast(read);
    }
  }

  lemma {:induction false} ErrorMessageIsLast(read: seq<RunEvent>)
    ensures forall i :: LastError(read, i) ==> ErrorMessage(read) == read[i].message
    ensures (forall i :: 0 <= i < |read| ==> !read[i].Error?) ==> ErrorMessage(read) == None
  {
    if read != [] && !read[|read| - 1].Error? {
      var front := read[..|read| - 1];
      ErrorMessageIsLast(front);
      forall i | LastError(read, i) ensures ErrorMessage(read) == read[i].message {
        assert LastError(front, i) && front[i] == read[i];
      }
      if forall i :: 0 <= i < |read| ==> !read[i].Error? {
        assert forall i :: 0 <= i < |front| ==> !front[i].Error?;
      }
    }
  }

  lemma ErrorMessageExplains(read: seq<RunEvent>, state: TaskState)
    ensures
      var message := ErrorMessage(read);
      Explains(read, state, if message.None? && state == Failed then Some(NO_TERMINAL_EVENT) else message)
  {
    hide ErrorMessage, LastError;
    ErrorMessageIsLast(read);
  }

  // The last event of a stream: the snapshot of a completed task with its text, or the
  // final status.
  ghost predicate LastSays(ctx: ExecutorContext, read: seq<RunEvent>, text: string, last: StreamResponse) {
    match last
    case TaskSnapshot(task) => EndsIn(read, Completed) && IsSnapshotOf(task, ctx, text)
    case StatusUpdate(status) =>
      status.state != Completed && EndsIn(read, status.state) && Explains(read, status.state, status.message)
    case _ => false
  }

  // A completed task has its text once, if there is any, and its message in the history.
  ghost predicate IsSnapshotOf(task: Task, ctx: ExecutorContext, text: string) {
    && task.id == ctx.taskId && task.contextId == ctx.contextId && task.status == TaskStatus(Completed, None)
    && task.artifacts == (if text == "" then None else Some([Artifact("answer", [TextPart(text)])]))
    && task.history == (if ctx.messageId in ctx.storedHistory then ctx.storedHistory
                        else ctx.storedHistory + [ctx.messageId])
  }

  lemma CompletedTaskIsSnapshot(ctx: ExecutorContext, text: string)
    ensures CompletedTask(ctx, text).TaskSnapshot? && IsSnapshotOf(CompletedTask(ctx, text).task, ctx, text)
  {
  }

  lemma EndEventSays(ctx: ExecutorContext, events: seq<RunEvent>)
    ensures LastSays(ctx, Consumed(events), Join(Deltas(Consumed(events))), EndEventOf(ctx, events))
    ensures EndsIn(Consumed(events), FinalState(events))
  {
    hide EndsIn, Explains, CompletedTask, IsSnapshotOf, Consumed, EndState, ErrorMessage, Join, Deltas;
    CompletedTaskIsSnapshot(ctx, Join(Deltas(Consumed(events))));
    EndStateDecides(Consumed(events));
    ErrorMessageExplains(Consumed(events), FinalState(events));
  }

  // What has been emitted once some events were read: every delta but the latest.
  ghost predicate Streaming(out: seq<StreamResponse>, deltas: seq<string>) {
    var shown := if deltas == [] then 0 else |deltas| - 1;
    && CollectAll(out) == Collected(Join(deltas[..shown]), None)
    && AnswerChunks(out) == Chunked(deltas, shown, false)
  }

  lemma StreamActivity(out: seq<StreamResponse>, deltas: seq<string>, data: string)
    requires Streaming(out, deltas)
    ensures Streaming(out + [ActivityEvent(data)], deltas)
  {
    CollectSnoc(out, ActivityEvent(data));
    ChunksSnoc(out, ActivityEvent(data));
    CollectExecutorEvents(ExecutorContext("", "", "", []), CollectAll(out), "", false, false, data);
  }

  lemma StreamDelta(out: seq<StreamResponse>, deltas: seq<string>, text: string)
    requires Streaming(out, deltas)
    ensures
      var n := |deltas|;
      Streaming(if n == 0 then out else out + [ArtifactEvent(deltas[n - 1], n > 1, false)], deltas + [text])
  {
    var n := |deltas|;
    if n == 0 {
      assert (deltas + [text])[..0] == deltas[..0];
    } else {
      var event := ArtifactEvent(deltas[n - 1], n > 1, false);
      CollectSnoc(out, event);
      ChunksSnoc(out, event);
      OneTextPart(deltas[n - 1]);
      CollectExecutorEvents(ExecutorContext("", "", "", []), CollectAll(out), deltas[n - 1], n > 1, false, "");
      assert (deltas + [text])[..n] == deltas;
      assert deltas[..n - 1] + [deltas[n - 1]] == deltas;
      assert Chunked(deltas + [text], n, false) == Chunked(deltas, n - 1, false) + [Chunk(deltas[n - 1], n > 1, false)];
    }
  }

  // The stream of a finished run: its pieces are the deltas in order, flagged first
  // and last, and folding it gives the whole text and the final state.
  ghost predicate Streamed(out: seq<StreamResponse>, deltas: seq<string>, state: TaskState) {
    && CollectAll(out) == Collected(Join(deltas), Some(state))
    && AnswerChunks(out) == Chunked(deltas, |deltas|, true)
  }

  lemma StreamLastChunk(out: seq<StreamResponse>, deltas: seq<string>)
    requires Streaming(out, deltas)
    ensures
      var n := |deltas|;
      var out' := if n == 0 then out else out + [ArtifactEvent(deltas[n - 1], n > 1, true)];
      && CollectAll(out') == Collected(Join(deltas), None)
      && AnswerChunks(out') == Chunked(deltas, n, true)
  {
    var n := |deltas|;
    if n > 0 {
      var event := ArtifactEvent(deltas[n - 1], n > 1, true);
      CollectSnoc(out, event);
      ChunksSnoc(out, event);
      OneTextPart(deltas[n - 1]);
      CollectExecutorEvents(ExecutorContext("", "", "", []), CollectAll(out), deltas[n - 1], n > 1, true, "");
      assert Chunked(deltas, n, true) == Chunked(deltas, n - 1, false) + [Chunk(deltas[n - 1], n > 1, true)];
    } else {
      assert deltas[..0] == deltas;
    }
  }

  lemma StreamEnd(ctx: ExecutorContext, out: seq<StreamResponse>, deltas: seq<string>, state: TaskState,
                  message: Option<string>)
    requires CollectAll(out) == Collected(Join(deltas), None)
    requires AnswerChunks(out) == Chunked(deltas, |deltas|, true)
    requires IsTerminal(state)
    ensures Streamed(
      out + [if state == Completed then CompletedTask(ctx, Join(deltas)) else StatusEvent(state, message)], deltas, state)
  {
    hide Collect, Join, CollectAll, AnswerChunks, Chunked;
    var event := if state == Completed then CompletedTask(ctx, Join(deltas)) else StatusEvent(state, message);
    EndEvent(ctx, CollectAll(out), Join(deltas), state, message);
    CollectSnoc(out, event);
    ChunksSnoc(out, event);
  }

  lemma EndEvent(ctx: ExecutorContext, sofar: Collected, text: string, state: TaskState, message: Option<string>)
    requires sofar.answer == "" || sofar.answer == text || state != Completed
    requires IsTerminal(state)
    ensures Collect(sofar, if state == Completed then CompletedTask(ctx, text) else StatusEvent(state, message))
         == Collected(if state == Completed then text else sofar.answer, Some(state))
  {
    if state == Completed {
      CollectExecutorEvents(ctx, sofar, text, false, false, "");
    }
  }

  lemma {:induction false} EmittedStreams(events: seq<RunEvent>, activity: RunEvent -> string)
    ensures Streaming([StatusEvent(Working, None)] + Emitted(events, activity), Deltas(events))
  {
    hide Streaming, ArtifactEvent, ActivityEvent;
    var working := [StatusEvent(Working, None)];
    StreamNothing();
    if events == [] {
      assert working + Emitted(events, activity) == working;
    } else {
      var front, last := events[..|events| - 1], events[|events| - 1];
      var out, shown := working + Emitted(front, activity), ActivityEvent(activity(last));
      EmittedStreams(front, activity);
      StreamActivity(out, Deltas(front), activity(last));
      if HasText(last) {
        StreamDelta(out + [shown], Deltas(front), last.delta.value);
      }
      var deltas := Deltas(front);
      var piece := if HasText(last) && deltas != [] then [ArtifactEvent(deltas[|deltas| - 1], |deltas| > 1, false)] else [];
      assert out + [shown] + [] == out + [shown];
      assert working + Emitted(events, activity) == out + [shown] + piece;
    }
  }

  // The whole stream: the activity of the events read, with the answer's pieces in
  // between, and how the run ended.
  function RemiEvents(ctx: ExecutorContext, read: seq<RunEvent>, activity: RunEvent -> string, end: StreamResponse)
    : seq<StreamResponse>
  {
    var deltas := Deltas(read);
    [StatusEvent(Working, None)] + Emitted(read, activity)
    + (if deltas == [] then [] else [ArtifactEvent(deltas[|deltas| - 1], |deltas| > 1, true)]) + [end]
  }

  function EndEventOf(ctx: ExecutorContext, events: seq<RunEvent>): StreamResponse {
    if FinalState(events) == Completed then CompletedTask(ctx, Join(Deltas(Consumed(events))))
    else StatusEvent(FinalState(events), FinalMessage(events))
  }

  lemma RemiStreams(ctx: ExecutorContext, events: seq<RunEvent>, activity: RunEvent -> string)
    ensures Streamed(RemiEvents(ctx, Consumed(events), activity, EndEventOf(ctx, events)),
                     Deltas(Consumed(events)), FinalState(events))
  {
    hide Streaming, Streamed, CompletedTask, ArtifactEvent, Consumed, Deltas, Emitted, CollectAll, AnswerChunks, Join, Chunked;
    var read := Consumed(events);
    var deltas := Deltas(read);
    EmittedStreams(read, activity);
    var out := [StatusEvent(Working, None)] + Emitted(read, activity);
    StreamLastChunk(out, deltas);
    var out' := if deltas == [] then out else out + [ArtifactEvent(deltas[|deltas| - 1], |deltas| > 1, true)];
    StreamEnd(ctx, out', deltas, FinalState(events), FinalMessage(events));
    assert RemiEvents(ctx, read, activity, EndEventOf(ctx, events)) == out' + [EndEventOf(ctx, events)];
  }

  lemma EndsOneMore(events: seq<RunEvent>, i: nat)
    requires i < |events|
    ensures EndState(events[..i + 1]) ==
      match events[i]
      case Cancelled => Some(Canceled)
      case Error(_) => Some(Failed)
      case RunFinished(status) => Some(FinishedState(if status.Some? then status.value else "completed"))
      case _ => EndState(events[..i])
    ensures ErrorMessage(events[..i + 1]) == if events[i].Error? then events[i].message else ErrorMessage(events[..i])
  {
    hide FinishedState;
    assert events[..i + 1][..i] == events[..i];
  }

  lemma StreamIsWhole(ctx: ExecutorContext, events: seq<RunEvent>, activity: RunEvent -> string,
                      out: seq<StreamResponse>, end: StreamResponse)
    requires end == EndEventOf(ctx, events)
    requires
      var deltas := Deltas(Consumed(events));
      out == [StatusEvent(Working, None)] + Emitted(Consumed(events), activity)
             + if deltas == [] then [] else [ArtifactEvent(deltas[|deltas| - 1], |deltas| > 1, true)]
    ensures out + [end] == RemiEvents(ctx, Consumed(events), activity, EndEventOf(ctx, events))
    ensures (out + [end])[0] == StatusUpdate(TaskStatus(Working, None)) && (out + [end])[|out|] == end
    ensures |out| >= 1
  {
  }

  method ExecuteRemi(ctx: ExecutorContext, events: seq<RunEvent>, activity: RunEvent -> string)
    returns (out: seq<StreamResponse>)
    ensures out == RemiEvents(ctx, Consumed(events), activity, EndEventOf(ctx, events))
    ensures Streamed(out, Deltas(Consumed(events)), FinalState(events))
    ensures TextsOf(Consumed(events), Deltas(Consumed(events))) && EndsIn(Consumed(events), FinalState(events))
    ensures |out| >= 2 && out[0] == StatusUpdate(TaskStatus(Working, None))
    ensures LastSays(ctx, Consumed(events), Join(Deltas(Consumed(events))), out[|out| - 1])
  {
    hide Streamed, CompletedTask, ArtifactEvent, ActivityEvent, Consumed, FinishedState, EndsIn, LastSays, TextsOf,
         Deltas, Emitted, Join, EndState, ErrorMessage, RemiEvents;
    ReadNothing(activity);
    out := [StatusEvent(Working, None)];
    var pendingText: Option<string> := None;
    var completeText := "";
    var append := false;
    var terminalState: Option<TaskState> := None;
    var terminalMessage: Option<string> := None;
    var i := 0;
    while i < |events|
      invariant i <= |events|
      invariant forall k :: 0 <= k < i ==> !events[k].RunFinished?
      invariant
        var deltas := Deltas(events[..i]);
        && pendingText == (if deltas == [] then None else Some(deltas[|deltas| - 1]))
        && completeText == Join(deltas)
        && (append <==> |deltas| > 1)
      invariant terminalState == EndState(events[..i])
      invariant terminalMessage == ErrorMessage(events[..i])
      invariant out == [StatusEvent(Working, None)] + Emitted(events[..i], activity)
    {
      var event := events[i];
      assert events[..i + 1][..i] == events[..i];
      ReadOneMore(events, i, activity);
      EndsOneMore(events, i);
      i := i + 1;
      out := out + [ActivityEvent(activity(event))];
      match event
      case TextDelta(delta) =>
        if delta.None? || delta.value == "" {
          continue;
        }
        var text := delta.value;
        completeText := completeText + text;
        JoinSnoc(Deltas(events[..i - 1]), text);
        if pendingText.Some? {
          var previous := pendingText.value;
          out := out + [ArtifactEvent(previous, append, false)];
          append := true;
        }
        pendingText := Some(text);
      case Cancelled => terminalState := Some(Canceled);
      case Error(message) =>
        terminalState := Some(Failed);
        terminalMessage := message;
      case RunFinished(status) =>
        terminalState := Some(FinishedState(if status.Some? then status.value else "completed"));
        break;
      case OtherEvent(_) =>
    }
    ConsumedIs(events, i);
    RemiStreams(ctx, events, activity);
    DeltasAreTexts(Consumed(events));
    EndEventSays(ctx, events);
    assert Consumed(events) == events[..i];
    if pendingText.Some? {
      out := out + [ArtifactEvent(pendingText.value, append, true)];
    }
    var state := if terminalState.Some? then terminalState.value else Failed;
    if terminalMessage.None? && state == Failed {
      terminalMessage := Some(NO_TERMINAL_EVENT);
    }
    StreamIsWhole(ctx, events, activity, out, EndEventOf(ctx, events));
    if state == Completed {
      out := out + [CompletedTask(ctx, completeText)];
    } else {
      out := out + [StatusEvent(state, terminalMessage)];
    }
  }

  lemma StreamNothing()
    ensures Streaming([StatusEvent(Working, None)], [])
  {
    CollectSnoc([], StatusEvent(Working, None));
    ChunksSnoc([], StatusEvent(Working, None));
    assert [] + [StatusEvent(Working, None)] == [StatusEvent(Working, None)];
  }

  lemma {:induction false} ConsumedIs(events: seq<RunEvent>, i: nat)
    requires i <= |events|
    requires forall k :: 0 <= k < i - 1 ==> !events[k].RunFinished?
    requires i == |events| || (i > 0 && events[i - 1].RunFinished?)
    ensures Consumed(events) == events[..i]
  {
    if i > 0 {
      if events[0].RunFinished? {
        assert i == 1;
      } else {
        ConsumedIs(events[1..], i - 1);
        assert events[..i] == [events[0]] + events[1..][..i - 1];
      }
    }
  }
}
