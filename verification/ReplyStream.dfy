/** The executor of an application's runs (`ApplicationA2aExecutor` in
`src/a2a_channel.rs`): activity while the run goes on, and the reply at its end. */
module ReplyStream {
  import opened Text
  import opened A2a
  import opened AnswerStream
  import opened ApplicationEvents

  // Activity an event is shown as, if it is shown.
  datatype Activity = TextActivity(text: string) | ErrorActivity(message: string) | CancelledActivity
    | OtherActivity(kind: string, data: string)

  function CatActivity(event: CatEvent): Option<Activity> {
    match event
    case Text(text) => Some(TextActivity(text))
    case Error(message) => Some(ErrorActivity(message))
    case Cancelled => Some(CancelledActivity)
    case SubSession(child) => Some(OtherActivity("sub_session", child))
    case Shown(kind, data) => Some(OtherActivity(kind, data))
    case _ => None
  }

  function ActivityOf(event: ApplicationEvent): Option<Activity> {
    match event
    case Prefix(text) => Some(TextActivity(text))
    case Reply(text) => Some(TextActivity(text))
    case Cat(event) => CatActivity(event)
    case _ => None
  }

  function Activities(events: seq<ApplicationEvent>, render: Activity -> string): seq<StreamResponse> {
    if events == [] then []
    else
      var front := Activities(events[..|events| - 1], render);
      match ActivityOf(events[|events| - 1])
      case None => front
      case Some(activity) => front + [ActivityEvent(render(activity))]
  }

  function LastEvent(ctx: ExecutorContext, events: seq<ApplicationEvent>): StreamResponse {
    if ReplyState(events) == Completed then CompletedTask(ctx, ReplyText(events))
    else StatusEvent(ReplyState(events), ReplyMessage(events))
  }

  // The stream of a run, from the events it was given before its end.
  function ReplyEvents(ctx: ExecutorContext, events: seq<ApplicationEvent>, render: Activity -> string)
    : seq<StreamResponse>
  {
    [StatusEvent(Working, None)] + Activities(events, render) + [LastEvent(ctx, events)]
  }

  // What folding the stream must give: the whole reply of a completed run, once.
  function Outcome(events: seq<ApplicationEvent>): Collected {
    var consumed := UntilDone(events);
    Collected(if ReplyState(consumed) == Completed then ReplyText(consumed) else "", Some(ReplyState(consumed)))
  }

  // The activity that an event is shown as, if it is.
  ghost function ShownEvent(event: ApplicationEvent, render: Activity -> string): Option<StreamResponse> {
    if event.Prefix? || event.Reply? then Some(Showing(render(TextActivity(event.text))))
    else if !event.Cat? then None
    else
      match event.event
      case Text(text) => Some(Showing(render(TextActivity(text))))
      case Error(message) => Some(Showing(render(ErrorActivity(message))))
      case Cancelled => Some(Showing(render(CancelledActivity)))
      case SubSession(child) => Some(Showing(render(OtherActivity("sub_session", child))))
      case Shown(kind, data) => Some(Showing(render(OtherActivity(kind, data))))
      case ModelInputSnapshot(_) => None
      case Unshown => None
  }

  ghost function Showing(data: string): StreamResponse {
    ArtifactUpdate(Artifact("remi-activity", [DataPart(data)]), false, false)
  }

  // The snapshot of a completed task with the reply, or the final status.
  ghost predicate TellsEnd(ctx: ExecutorContext, read: seq<ApplicationEvent>, last: StreamResponse) {
    match last
    case TaskSnapshot(task) => IsEnd(read, Completed, None) && exists text :: IsReply(read, text) && IsSnapshotOf(task, ctx, text)
    case StatusUpdate(status) => status.state != Completed && IsEnd(read, status.state, status.message)
    case _ => false
  }

  lemma {:induction false} ActivitiesShow(read: seq<ApplicationEvent>, render: Activity -> string)
    ensures Selected(read, Activities(read, render), (event: ApplicationEvent) => ShownEvent(event, render))
  {
    hide Selected;
    var image := (event: ApplicationEvent) => ShownEvent(event, render);
    if read == [] {
      SelectedNothing(image);
    } else {
      var front := read[..|read| - 1];
      ActivitiesShow(front, render);
      SelectedSnoc(read, Activities(front, render), image);
    }
  }

  lemma {:induction false} CompletedHasNoMessage(read: seq<ApplicationEvent>)
    requires ReplyState(read) == Completed
    ensures ReplyMessage(read) == None
  {
    if read != [] {
      CompletedHasNoMessage(read[..|read| - 1]);
    }
  }

  lemma LastEventTells(ctx: ExecutorContext, read: seq<ApplicationEvent>)
    ensures TellsEnd(ctx, read, LastEvent(ctx, read))
  {
    hide IsEnd, IsReply, IsSnapshotOf, CompletedTask, ReplyText, ReplyState, ReplyMessage;
    ReplyTextIsReply(read);
    ReplyEnds(read);
    CompletedTaskIsSnapshot(ctx, ReplyText(read));
    if ReplyState(read) == Completed {
      CompletedHasNoMessage(read);
    }
  }

  method ExecuteApplication(ctx: ExecutorContext, events: seq<ApplicationEvent>, render: Activity -> string)
    returns (out: seq<StreamResponse>)
    ensures out == ReplyEvents(ctx, UntilDone(events), render)
    ensures |out| >= 2 && out[0] == StatusUpdate(TaskStatus(Working, None))
    ensures Selected(UntilDone(events), out[1..|out| - 1], (event: ApplicationEvent) => ShownEvent(event, render))
    ensures TellsEnd(ctx, UntilDone(events), out[|out| - 1])
  {
    hide CompletedTask, ActivityEvent, UntilDone, Selected, TellsEnd;
    ActivitiesShow(UntilDone(events), render);
    LastEventTells(ctx, UntilDone(events));
    out := [StatusEvent(Working, None)];
    var finalOutput := "";
    var terminal := Completed;
    var terminalMessage: Option<string> := None;
    var i := 0;
    while i < |events|
      invariant i <= |events|
      invariant forall k :: 0 <= k < i ==> !events[k].Done?
      invariant finalOutput == ReplyText(events[..i])
      invariant terminal == ReplyState(events[..i]) && terminalMessage == ReplyMessage(events[..i])
      invariant out == [StatusEvent(Working, None)] + Activities(events[..i], render)
    {
      assert events[..i + 1][..i] == events[..i];
      match events[i] {
        case Prefix(text) =>
          finalOutput := finalOutput + text;
          out := out + [ActivityEvent(render(TextActivity(text)))];
        case Reply(text) =>
          finalOutput := finalOutput + text;
          out := out + [ActivityEvent(render(TextActivity(text)))];
        case Cat(event) =>
          var shown := CatActivity(event);
          if shown.Some? {
            match shown.value {
              case TextActivity(text) => finalOutput := finalOutput + text;
              case ErrorActivity(message) => terminal := Failed; terminalMessage := Some(message);
              case CancelledActivity => terminal := Canceled;
              case OtherActivity(_, _) =>
            }
            out := out + [ActivityEvent(render(shown.value))];
          }
        case ResponseCompleted(text) => finalOutput := text;
        case Done => break;
        case SupervisorStarted =>
      }
      i := i + 1;
    }
    UntilDoneIs(events, i);
    if terminal == Completed {
      out := out + [CompletedTask(ctx, finalOutput)];
    } else {
      out := out + [StatusEvent(terminal, terminalMessage)];
    }
  }

  lemma {:induction false} ActivityIsQuiet(events: seq<ApplicationEvent>, render: Activity -> string)
    ensures CollectAll([StatusEvent(Working, None)] + Activities(events, render)) == Collected("", None)
    ensures AnswerChunks([StatusEvent(Working, None)] + Activities(events, render)) == []
  {
    hide ActivityEvent, CollectAll, AnswerChunks, Collect;
    var working := [StatusEvent(Working, None)];
    if events == [] {
      assert working + Activities(events, render) == working;
      StreamNothing();
    } else {
      var front, shown := events[..|events| - 1], ActivityOf(events[|events| - 1]);
      ActivityIsQuiet(front, render);
      if shown.Some? {
        var event := ActivityEvent(render(shown.value));
        assert working + Activities(events, render) == working + Activities(front, render) + [event];
        QuietActivity(working + Activities(front, render), render(shown.value));
      }
    }
  }

  lemma QuietActivity(out: seq<StreamResponse>, data: string)
    requires CollectAll(out) == Collected("", None) && AnswerChunks(out) == []
    ensures CollectAll(out + [ActivityEvent(data)]) == Collected("", None)
    ensures AnswerChunks(out + [ActivityEvent(data)]) == []
  {
    CollectSnoc(out, ActivityEvent(data));
    ChunksSnoc(out, ActivityEvent(data));
    CollectExecutorEvents(ExecutorContext("", "", "", []), CollectAll(out), "", false, false, data);
  }

  // Folding the whole stream gives the reply of a completed run exactly once, and
  // otherwise no text, with the state the run ended in.
  lemma FoldIsOutcome(ctx: ExecutorContext, events: seq<ApplicationEvent>, render: Activity -> string)
    ensures CollectAll(ReplyEvents(ctx, UntilDone(events), render)) == Outcome(events)
    ensures AnswerChunks(ReplyEvents(ctx, UntilDone(events), render)) == []
  {
    hide CollectAll, AnswerChunks, Collect, CompletedTask, ReplyText, ReplyState, ReplyMessage, Activities;
    var consumed := UntilDone(events);
    var before := [StatusEvent(Working, None)] + Activities(consumed, render);
    ActivityIsQuiet(consumed, render);
    LastEventEnds(ctx, before, consumed);
  }

  lemma LastEventEnds(ctx: ExecutorContext, before: seq<StreamResponse>, events: seq<ApplicationEvent>)
    requires CollectAll(before) == Collected("", None) && AnswerChunks(before) == []
    ensures
      CollectAll(before + [LastEvent(ctx, events)])
      == Collected(if ReplyState(events) == Completed then ReplyText(events) else "", Some(ReplyState(events)))
    ensures AnswerChunks(before + [LastEvent(ctx, events)]) == []
  {
    hide ReplyText, ReplyState, ReplyMessage;
    CollectSnoc(before, LastEvent(ctx, events));
    ChunksSnoc(before, LastEvent(ctx, events));
    CollectExecutorEvents(ctx, CollectAll(before), ReplyText(events), false, false, "");
  }
}
