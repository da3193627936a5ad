/** A delegated question, end to end: a run of an application, the events its executor
is given, the stream the executor makes of them, the pipe, and the caller's fold
(`src/application.rs`, `src/a2a_channel.rs`, `src/a2a_stdio.rs`, `src/external_agent.rs`).
*/
module Delegation {
  import opened Text
  import opened A2a
  import opened AnswerStream
  import opened ApplicationEvents
  import opened ReplyStream
  import Dispatch
  import Multiplex

  // ---------------------------------------------------------------------------
  // From the executor to the caller
  // ---------------------------------------------------------------------------

  // On the pipe, shared in any way with other tasks, the caller gets the outcome of the
  // events the executor was given, or notices that the answer is incomplete.
  lemma PipedAnswer(pipe: seq<Multiplex.Step>, id: string, taskId: string, contextId: string,
                    ctx: ExecutorContext, events: seq<ApplicationEvent>, render: Activity -> string)
    requires Multiplex.Run(Multiplex.Start, pipe).Some?
    requires
      var stream := ReplyEvents(ctx, UntilDone(events), render);
      Multiplex.Receive(Multiplex.MessageStream(id, taskId, contextId, Multiplex.Yields(stream))) in pipe
    ensures
      var server := Multiplex.Run(Multiplex.Start, pipe).value;
      var result := Multiplex.AskFrom(Multiplex.Output(server), id, Collected("", None));
      && (result == Multiplex.Conclude(Outcome(events)) || result == Multiplex.Exited)
      && (Multiplex.Drained(server) ==> result == Multiplex.Conclude(Outcome(events)))
  {
    hide *;
    FoldIsOutcome(ctx, events, render);
    Multiplex.CallerGetsItsOwnAnswer(pipe, id, taskId, contextId, ReplyEvents(ctx, UntilDone(events), render));
  }

  datatype HubResult = HubAnswer(text: string) | HubEndedIn(state: TaskState) | NoTerminalState | NoHubAnswer

  function ConcludeHub(collected: Collected): HubResult {
    if collected.terminal.None? then NoTerminalState
    else if collected.terminal.value != Completed then HubEndedIn(collected.terminal.value)
    else if collected.answer == "" then NoHubAnswer
    else HubAnswer(collected.answer)
  }

  // A hub hands over a whole stream, of either executor.
  method AskHub(events: seq<StreamResponse>) returns (result: HubResult)
    ensures result == ConcludeHub(CollectAll(events))
  {
    hide Collect;
    var collector := new Collector();
    for i := 0 to |events|
      invariant collector.View() == CollectAll(events[..i])
    {
      assert events[..i + 1][..i] == events[..i];
      collector.CollectEvent(events[i]);
    }
    assert events[..|events|] == events;
    if collector.terminal.None? {
      return NoTerminalState;
    }
    if collector.terminal.value != Completed {
      return HubEndedIn(collector.terminal.value);
    }
    if collector.answer == "" {
      return NoHubAnswer;
    }
    return HubAnswer(collector.answer);
  }

  function WholeAnswer(text: string, state: TaskState): HubResult {
    if state != Completed then HubEndedIn(state) else if text == "" then NoHubAnswer else HubAnswer(text)
  }

  // Through a hub, the executor of chats gives exactly the text of its deltas...
  lemma HubGetsDeltas(events: seq<StreamResponse>, deltas: seq<string>, state: TaskState)
    requires Streamed(events, deltas, state)
    ensures ConcludeHub(CollectAll(events)) == WholeAnswer(Join(deltas), state)
  {
  }

  // ...and that of application runs the reply of the events it was given.
  lemma HubGetsReply(ctx: ExecutorContext, events: seq<ApplicationEvent>, render: Activity -> string)
    ensures
      var consumed := UntilDone(events);
      ConcludeHub(CollectAll(ReplyEvents(ctx, consumed, render))) == WholeAnswer(ReplyText(consumed), ReplyState(consumed))
  {
    hide CollectAll, ReplyEvents, ReplyText, ReplyState;
    FoldIsOutcome(ctx, events, render);
  }

  // ---------------------------------------------------------------------------
  // From the run to the executor
  // ---------------------------------------------------------------------------

  // All that the executor of a run will ever be given: it stops at `Done`, or when the
  // run's task is over and the channel empty.
  ghost predicate Heard(t: Dispatch.Task, events: seq<ApplicationEvent>) {
    && t.connected && t.received <= |t.sent| && events == t.sent[..t.received]
    && (HasDone(events) || (Dispatch.Settled(t.phase) && t.received == |t.sent|))
  }

  // The executor answers for the whole run if the run was not cancelled, or its end was
  // delivered all the same.
  lemma HeardIsWhole(steps: seq<Dispatch.Step>, i: nat, events: seq<ApplicationEvent>)
    requires Dispatch.RunSteps(steps).1 && i < |Dispatch.RunSteps(steps).0.tasks|
    requires Heard(Dispatch.RunSteps(steps).0.tasks[i], events)
    requires !Dispatch.RunSteps(steps).0.tasks[i].cancelled || HasDone(events)
    ensures Outcome(events) == Outcome(Dispatch.RunSteps(steps).0.tasks[i].yielded)
  {
    hide Outcome, UntilDone;
    hide Dispatch.RunSteps, Dispatch.EffectsOk;
    Dispatch.EveryRun(steps);
    var t := Dispatch.RunSteps(steps).0.tasks[i];
    assert Dispatch.DeliveryOk(t);
    assert t.sent == t.yielded[..|t.sent|];
    assert events <= t.yielded;
    if HasDone(events) {
      SameOutcome(events, t.yielded);
    } else {
      assert events == t.yielded;
    }
  }

  lemma SameOutcome(events: seq<ApplicationEvent>, whole: seq<ApplicationEvent>)
    requires events <= whole && HasDone(events)
    ensures Outcome(events) == Outcome(whole)
  {
    UntilDoneOfPrefix(events, whole);
  }

  // End to end: whatever else the application and the pipe are doing, the caller of a
  // run that was not cancelled before its end was delivered gets the run's whole reply,
  // once, and only if the run completed; or notices that the answer is incomplete.
  lemma DelegatedAnswer(steps: seq<Dispatch.Step>, i: nat, events: seq<ApplicationEvent>,
                        pipe: seq<Multiplex.Step>, id: string, taskId: string, contextId: string,
                        ctx: ExecutorContext, render: Activity -> string)
    requires Dispatch.RunSteps(steps).1 && i < |Dispatch.RunSteps(steps).0.tasks|
    requires Heard(Dispatch.RunSteps(steps).0.tasks[i], events)
    requires !Dispatch.RunSteps(steps).0.tasks[i].cancelled || HasDone(events)
    requires Multiplex.Run(Multiplex.Start, pipe).Some?
    requires
      var stream := ReplyEvents(ctx, UntilDone(events), render);
      Multiplex.Receive(Multiplex.MessageStream(id, taskId, contextId, Multiplex.Yields(stream))) in pipe
    ensures
      var server := Multiplex.Run(Multiplex.Start, pipe).value;
      var result := Multiplex.AskFrom(Multiplex.Output(server), id, Collected("", None));
      var run := UntilDone(Dispatch.RunSteps(steps).0.tasks[i].yielded);
      var whole :=
        if ReplyState(run) != Completed then Multiplex.EndedIn(ReplyState(run))
        else if ReplyText(run) == "" then Multiplex.NoAnswer
        else Multiplex.Answer(ReplyText(run));
      && (result == whole || result == Multiplex.Exited)
      && (Multiplex.Drained(server) ==> result == whole)
  {
    HeardIsWhole(steps, i, events);
    PipedAnswer(pipe, id, taskId, contextId, ctx, events, render);
    hide *;
    var run := UntilDone(Dispatch.RunSteps(steps).0.tasks[i].yielded);
    ConcludeOutcome(Dispatch.RunSteps(steps).0.tasks[i].yielded);
  }

  lemma ConcludeOutcome(events: seq<ApplicationEvent>)
    ensures
      var run := UntilDone(events);
      Multiplex.Conclude(Outcome(events))
      == if ReplyState(run) != Completed then Multiplex.EndedIn(ReplyState(run))
         else if ReplyText(run) == "" then Multiplex.NoAnswer
         else Multiplex.Answer(ReplyText(run))
  {
  }

  // ---------------------------------------------------------------------------
  // What cancelling does to the answer
  // ---------------------------------------------------------------------------

  // An application with one run.
  function Only(t: Dispatch.Task): Dispatch.World {
    Dispatch.World(1, map[0 := 0], [t], [], Dispatch.Serving)
  }

  // It has yielded `events`, all of them read by the executor.
  function Underway(events: seq<ApplicationEvent>): Dispatch.Task {
    Dispatch.Task(0, events, Dispatch.Effects(events), Dispatch.Polling, true, events, |events|, true, false, false)
  }

  ghost predicate Reaches(steps: seq<Dispatch.Step>, w: Dispatch.World) {
    Dispatch.RunSteps(steps) == (w, true)
  }

  lemma Take(steps: seq<Dispatch.Step>, w: Dispatch.World, step: Dispatch.Step) returns (longer: seq<Dispatch.Step>)
    requires Reaches(steps, w) && Dispatch.Enabled(w, step)
    ensures Reaches(longer, Dispatch.Next(w, step))
  {
    Dispatch.RunSnoc(steps, step);
    longer := steps + [step];
  }

  lemma TakeOwn(steps: seq<Dispatch.Step>, t: Dispatch.Task, step: Dispatch.Step) returns (longer: seq<Dispatch.Step>)
    requires Reaches(steps, Only(t)) && Dispatch.IsTaskStep(step) && step.task == 0 && !step.End?
    requires Dispatch.TaskCan(t, step)
    ensures Reaches(longer, Only(Dispatch.TaskStep(t, step)))
  {
    hide Reaches, Dispatch.TaskCan, Dispatch.TaskStep;
    assert [t][0 := Dispatch.TaskStep(t, step)] == [Dispatch.TaskStep(t, step)];
    longer := Take(steps, Only(t), step);
  }

  lemma JustStarted() returns (steps: seq<Dispatch.Step>)
    ensures Reaches(steps, Only(Underway([])))
  {
    steps := Take([], Dispatch.Start(), Dispatch.Run(true));
    assert Dispatch.Next(Dispatch.Start(), Dispatch.Run(true)) == Only(Underway([]));
  }

  lemma OneMoreHeard(steps: seq<Dispatch.Step>, events: seq<ApplicationEvent>, event: ApplicationEvent)
    returns (longer: seq<Dispatch.Step>)
    requires Reaches(steps, Only(Underway(events)))
    ensures Reaches(longer, Only(Underway(events + [event])))
  {
    hide Reaches, Only, Dispatch.HasEffect;
    assert (events + [event])[..|events|] == events;
    var t := Underway(events);
    longer := TakeOwn(steps, t, Dispatch.Yield(0, event));
    t := Dispatch.TaskStep(t, Dispatch.Yield(0, event));
    longer := TakeOwn(longer, t, Dispatch.Record(0));
    t := Dispatch.TaskStep(t, Dispatch.Record(0));
    longer := TakeOwn(longer, t, Dispatch.Send(0));
    t := Dispatch.TaskStep(t, Dispatch.Send(0));
    longer := TakeOwn(longer, t, Dispatch.Receive(0));
    assert Dispatch.TaskStep(t, Dispatch.Receive(0)) == Underway(events + [event]);
  }

  lemma {:induction false} CanBeUnderway(events: seq<ApplicationEvent>) returns (steps: seq<Dispatch.Step>)
    ensures Reaches(steps, Only(Underway(events)))
  {
    hide *;
    if events == [] {
      steps := JustStarted();
    } else {
      var front, last := events[..|events| - 1], events[|events| - 1];
      steps := CanBeUnderway(front);
      steps := OneMoreHeard(steps, front, last);
      assert front + [last] == events;
    }
  }

  // Terminating a run at any point tells its caller that it completed, if nothing it
  // has heard so far says otherwise, with the text so far.
  lemma TerminatedRunLooksCompleted(events: seq<ApplicationEvent>) returns (steps: seq<Dispatch.Step>)
    requires !HasDone(events) && ReplyState(events) == Completed
    ensures Dispatch.RunSteps(steps).1
    ensures
      var w := Dispatch.RunSteps(steps).0;
      |w.tasks| == 1 && w.tasks[0].phase.Aborted? && Heard(w.tasks[0], events)
    ensures Outcome(events) == Collected(ReplyText(events), Some(Completed))
  {
    steps := CanBeUnderway(events);
    steps := Take(steps, Only(Underway(events)), Dispatch.Terminate(0));
    hide Dispatch.RunSteps, ReplyState, ReplyText;
    UntilDoneIs(events, |events|);
    assert events[..|events|] == events;
  }

  // Cancelling one can do the same: the cancellation the run reports is not delivered.
  lemma CancelledRunLooksCompleted(events: seq<ApplicationEvent>) returns (steps: seq<Dispatch.Step>)
    requires !HasDone(events) && ReplyState(events) == Completed
    ensures Dispatch.RunSteps(steps).1
    ensures
      var w := Dispatch.RunSteps(steps).0;
      && |w.tasks| == 1 && w.tasks[0].phase.Ended? && Heard(w.tasks[0], events)
      && w.tasks[0].yielded == events + [Cat(CatEvent.Cancelled), Done]
    ensures Outcome(events) == Collected(ReplyText(events), Some(Completed))
    ensures Outcome(events + [Cat(CatEvent.Cancelled), Done]) == Collected("", Some(Canceled))
  {
    steps := CanBeUnderway(events);
    steps := Take(steps, Only(Underway(events)), Dispatch.Cancel(0));
    var t := Underway(events).(cancelled := true);
    assert Dispatch.Next(Only(Underway(events)), Dispatch.Cancel(0)) == Only(t);
    steps := CancelGoesUndelivered(steps, t);
    assert events + [Cat(CatEvent.Cancelled)] + [Done] == events + [Cat(CatEvent.Cancelled), Done];
    CancelledOutcome(events);
  }

  lemma CancelGoesUndelivered(steps: seq<Dispatch.Step>, t: Dispatch.Task) returns (longer: seq<Dispatch.Step>)
    requires Reaches(steps, Only(t)) && t.phase.Polling? && t.deliver && t.cancelled && t.id == 0
    ensures Dispatch.RunSteps(longer).1
    ensures
      Dispatch.RunSteps(longer).0.tasks
      == [t.(yielded := t.yielded + [Cat(CatEvent.Cancelled)] + [Done], deliver := false, phase := Dispatch.Ended)]
  {
    hide Reaches, Only;
    longer := TakeOwn(steps, t, Dispatch.Yield(0, Cat(CatEvent.Cancelled)));
    var u := Dispatch.TaskStep(t, Dispatch.Yield(0, Cat(CatEvent.Cancelled)));
    longer := TakeOwn(longer, u, Dispatch.Record(0));
    u := Dispatch.TaskStep(u, Dispatch.Record(0));
    longer := TakeOwn(longer, u, Dispatch.StopDelivering(0));
    u := Dispatch.TaskStep(u, Dispatch.StopDelivering(0));
    longer := TakeOwn(longer, u, Dispatch.Yield(0, Done));
    u := Dispatch.TaskStep(u, Dispatch.Yield(0, Done));
    longer := TakeOwn(longer, u, Dispatch.Record(0));
    u := Dispatch.TaskStep(u, Dispatch.Record(0));
    longer := EndIt(longer, u);
  }

  lemma EndIt(steps: seq<Dispatch.Step>, t: Dispatch.Task) returns (longer: seq<Dispatch.Step>)
    requires Reaches(steps, Only(t)) && t.phase.Polling?
    ensures Dispatch.RunSteps(longer).1
    ensures Dispatch.RunSteps(longer).0.tasks == [t.(phase := Dispatch.Ended)]
  {
    longer := Take(steps, Only(t), Dispatch.End(0));
  }

  lemma CancelledOutcome(events: seq<ApplicationEvent>)
    requires !HasDone(events)
    ensures UntilDone(events) == events
    ensures Outcome(events + [Cat(CatEvent.Cancelled), Done]) == Collected("", Some(Canceled))
  {
    UntilDoneIs(events, |events|);
    assert events[..|events|] == events;
    var whole := events + [Cat(CatEvent.Cancelled), Done];
    UntilDoneIs(whole, |events| + 1);
    assert whole[..|events| + 1] == events + [Cat(CatEvent.Cancelled)];
    assert (events + [Cat(CatEvent.Cancelled)])[..|events|] == events;
  }

  // Whoever was given just these events can answer for the run, whatever run it is.
  ghost predicate SpeaksForItsRun(events: seq<ApplicationEvent>) {
    forall steps, i ::
      Dispatch.RunSteps(steps).1 && 0 <= i < |Dispatch.RunSteps(steps).0.tasks|
      && Heard(Dispatch.RunSteps(steps).0.tasks[i], events)
      ==> Outcome(events) == Outcome(Dispatch.RunSteps(steps).0.tasks[i].yielded)
  }

  // An answer marked as completed is the run's whole reply, for every run it may come
  // from, exactly if the run's `Done` was among the events it was made of. The executor
  // does not look: a channel that just closes counts as the end.
  lemma CompletedIsTrueExactly(events: seq<ApplicationEvent>)
    requires ReplyState(UntilDone(events)) == Completed
    ensures SpeaksForItsRun(events) <==> HasDone(events)
  {
    hide Dispatch.RunSteps, Outcome, ReplyState, Heard;
    if HasDone(events) {
      forall steps, i | Dispatch.RunSteps(steps).1 && 0 <= i < |Dispatch.RunSteps(steps).0.tasks|
        && Heard(Dispatch.RunSteps(steps).0.tasks[i], events)
        ensures Outcome(events) == Outcome(Dispatch.RunSteps(steps).0.tasks[i].yielded)
      {
        HeardIsWhole(steps, i, events);
      }
    } else {
      UntilDoneIs(events, |events|);
      assert events[..|events|] == events;
      var steps := CancelledRunLooksCompleted(events);
      assert Outcome(events) != Outcome(Dispatch.RunSteps(steps).0.tasks[0].yielded);
    }
  }
}
