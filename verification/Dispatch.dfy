/** The run table of an application (`dispatch` in `src/application.rs`).

One loop starts, cancels, terminates and forgets runs; every run is a task of its own
that records side effects and delivers events to a caller who may go away. Here every
step of the loop, of the tasks and of the callers is interleaved freely. A task is
known by its place in the order of starting; what the table is keyed by, and what the
finished message carries, is only the id.
*/
module Dispatch {
  import opened ApplicationEvents
  import opened Text

  // How many events wait in a caller's channel before sending blocks.
  const EVENT_CAPACITY: nat := 64

  // The events that leave something on disk.
  predicate HasEffect(event: ApplicationEvent) {
    event.Cat? && (event.event.SubSession? || event.event.ModelInputSnapshot?)
  }

  function Effects(events: seq<ApplicationEvent>): seq<ApplicationEvent> {
    if events == [] then []
    else
      var front, last := Effects(events[..|events| - 1]), events[|events| - 1];
      if HasEffect(last) then front + [last] else front
  }

  // A child's event is mirrored to its conversation, a model input is saved; nothing
  // else a run yields is written down.
  ghost predicate Recorded(events: seq<ApplicationEvent>, effects: seq<ApplicationEvent>) {
    Selected(events, effects, (event: ApplicationEvent) =>
      if event.Cat? && (event.event.SubSession? || event.event.ModelInputSnapshot?) then Some(event) else None)
  }

  lemma {:induction false} EffectsAreRecorded(events: seq<ApplicationEvent>)
    ensures Recorded(events, Effects(events))
  {
    var image := (event: ApplicationEvent) =>
      if event.Cat? && (event.event.SubSession? || event.event.ModelInputSnapshot?) then Some(event) else None;
    if events == [] {
      SelectedNothing(image);
    } else {
      EffectsAreRecorded(events[..|events| - 1]);
      SelectedSnoc(events, Effects(events[..|events| - 1]), image);
    }
  }

  datatype Phase = Polling | Recording(event: ApplicationEvent) | Delivering(event: ApplicationEvent) | Ended | Aborted

  datatype Task = Task(id: nat, yielded: seq<ApplicationEvent>, effects: seq<ApplicationEvent>, phase: Phase,
                       deliver: bool, sent: seq<ApplicationEvent>, received: nat,
                       connected: bool, cancelled: bool, stopped: bool)

  datatype Mode = Serving | Draining | Closed

  datatype World = World(nextId: nat, runs: map<nat, nat>, tasks: seq<Task>, finished: seq<nat>, mode: Mode)

  datatype Step =
    // Commands to the loop.
    | Run(sessionFound: bool)
    | Cancel(id: nat)
    | Terminate(id: nat)
    | RunFinished
    | BeginShutdown
    | Join(id: nat)
    | TimeOut(id: nat)
    | EndShutdown
    // A task.
    | Yield(task: nat, event: ApplicationEvent)
    | Record(task: nat)
    | Send(task: nat)
    | SendFails(task: nat)
    | StopDelivering(task: nat)
    | End(task: nat)
    // The caller of a run.
    | Receive(task: nat)
    | Disconnect(task: nat)

  predicate Settled(phase: Phase) {
    phase.Ended? || phase.Aborted?
  }

  predicate TaskCan(t: Task, step: Step) {
    match step
    case Yield(_, _) => t.phase.Polling?
    case Record(_) => t.phase.Recording?
    case Send(_) => t.phase.Delivering? && t.connected && |t.sent| < t.received + EVENT_CAPACITY
    case SendFails(_) => t.phase.Delivering? && !t.connected
    case StopDelivering(_) => t.phase.Delivering? && (t.stopped || t.cancelled)
    case End(_) => t.phase.Polling?
    case Receive(_) => t.connected && t.received < |t.sent|
    case Disconnect(_) => t.connected
    case _ => false
  }

  function TaskStep(t: Task, step: Step): Task
    requires TaskCan(t, step)
  {
    match step
    case Yield(_, event) => t.(yielded := t.yielded + [event], phase := Recording(event))
    case Record(_) =>
      t.(effects := if HasEffect(t.phase.event) then t.effects + [t.phase.event] else t.effects,
         phase := if t.deliver then Delivering(t.phase.event) else Polling)
    case Send(_) => t.(sent := t.sent + [t.phase.event], phase := Polling)
    case SendFails(_) => t.(deliver := false, phase := Polling)
    case StopDelivering(_) => t.(deliver := false, phase := Polling)
    case End(_) => t.(phase := Ended)
    case Receive(_) => t.(received := t.received + 1)
    case Disconnect(_) => t.(connected := false)
  }

  function NewTask(id: nat): Task {
    Task(id, [], [], Polling, true, [], 0, true, false, false)
  }

  function Abort(t: Task): Task {
    if t.phase.Ended? then t else t.(phase := Aborted)
  }

  predicate IsTaskStep(step: Step) {
    step.Yield? || step.Record? || step.Send? || step.SendFails? || step.StopDelivering? || step.End? || step.Receive?
    || step.Disconnect?
  }

  // A caller that does not read holds delivery up once 64 events wait for it; then, only
  // its leaving or a cancelled token lets the run go on.
  lemma ChannelHolds64(t: Task, i: nat)
    requires t.phase.Delivering? && t.received <= |t.sent|
    ensures TaskCan(t, Send(i)) <==> t.connected && |t.sent[t.received..]| < 64
    ensures TaskCan(t, SendFails(i)) <==> !t.connected
    ensures TaskCan(t, StopDelivering(i)) <==> t.cancelled || t.stopped
  {
  }

  predicate Tabled(w: World, id: nat) {
    id in w.runs && w.runs[id] < |w.tasks|
  }

  predicate Enabled(w: World, step: Step) {
    if IsTaskStep(step) then step.task < |w.tasks| && TaskCan(w.tasks[step.task], step)
    else
      match step
      case Run(_) => w.mode.Serving?
      case Cancel(id) => w.mode.Serving? && (id in w.runs ==> Tabled(w, id))
      case Terminate(id) => w.mode.Serving? && (id in w.runs ==> Tabled(w, id))
      case RunFinished => w.mode.Serving? && w.finished != []
      case BeginShutdown => w.mode.Serving?
      case Join(id) => w.mode.Draining? && Tabled(w, id) && Settled(w.tasks[w.runs[id]].phase)
      case TimeOut(id) => w.mode.Draining? && Tabled(w, id)
      case EndShutdown => w.mode.Draining? && w.runs == map[]
  }

  // All tokens of the tabled runs are cancelled at once.
  function StopAll(w: World): (tasks: seq<Task>)
    ensures |tasks| == |w.tasks|
  {
    seq(|w.tasks|, i requires 0 <= i < |w.tasks| =>
      var t := w.tasks[i];
      if t.id in w.runs && w.runs[t.id] == i then t.(cancelled := true, stopped := true) else t)
  }

  function Next(w: World, step: Step): World
    requires Enabled(w, step)
  {
    if IsTaskStep(step) then
      var t := w.tasks[step.task];
      var after := w.(tasks := w.tasks[step.task := TaskStep(t, step)]);
      if step.End? then after.(finished := w.finished + [t.id]) else after
    else
      match step
      case Run(sessionFound) =>
        var taken := w.(nextId := w.nextId + 1);
        if !sessionFound then taken
        else taken.(runs := w.runs[w.nextId := |w.tasks|], tasks := w.tasks + [NewTask(w.nextId)])
      case Cancel(id) =>
        if id !in w.runs then w
        else
          var i := w.runs[id];
          w.(tasks := w.tasks[i := w.tasks[i].(cancelled := true)])
      case Terminate(id) =>
        if id !in w.runs then w
        else
          var i := w.runs[id];
          w.(runs := w.runs - {id}, tasks := w.tasks[i := Abort(w.tasks[i].(cancelled := true, stopped := true))])
      case RunFinished => w.(runs := w.runs - {w.finished[0]}, finished := w.finished[1..])
      case BeginShutdown => w.(tasks := StopAll(w), mode := Draining)
      case Join(id) => w.(runs := w.runs - {id})
      case TimeOut(id) =>
        var i := w.runs[id];
        w.(runs := w.runs - {id}, tasks := w.tasks[i := Abort(w.tasks[i])])
      case EndShutdown => w.(mode := Closed)
  }

  function Start(): World {
    World(0, map[], [], [], Serving)
  }

  function RunSteps(steps: seq<Step>): (World, bool) {
    if steps == [] then (Start(), true)
    else
      var (before, ok) := RunSteps(steps[..|steps| - 1]);
      var step := steps[|steps| - 1];
      if ok && Enabled(before, step) then (Next(before, step), true) else (before, false)
  }

  lemma RunSnoc(steps: seq<Step>, step: Step)
    requires RunSteps(steps).1 && Enabled(RunSteps(steps).0, step)
    ensures RunSteps(steps + [step]) == (Next(RunSteps(steps).0, step), true)
  {
    hide Enabled, Next;
    assert (steps + [step])[..|steps|] == steps;
  }

  // From any world.
  function After(w: World, steps: seq<Step>): Option<World> {
    if steps == [] then Some(w)
    else
      var before, step := After(w, steps[..|steps| - 1]), steps[|steps| - 1];
      if before.Some? && Enabled(before.value, step) then Some(Next(before.value, step)) else None
  }

  lemma AfterSnoc(w: World, steps: seq<Step>, step: Step)
    requires After(w, steps).Some? && Enabled(After(w, steps).value, step)
    ensures After(w, steps + [step]) == Some(Next(After(w, steps).value, step))
  {
    hide Enabled, Next;
    assert (steps + [step])[..|steps|] == steps;
  }

  lemma {:induction false} AfterConcat(w: World, a: seq<Step>, b: seq<Step>)
    requires After(w, a).Some?
    ensures After(w, a + b) == After(After(w, a).value, b)
  {
    hide Enabled, Next;
    if b == [] {
      assert a + b == a;
    } else {
      assert (a + b)[..|a + b| - 1] == a + b[..|b| - 1];
      AfterConcat(w, a, b[..|b| - 1]);
    }
  }

  lemma {:induction false} AfterIsRun(before: seq<Step>, steps: seq<Step>)
    requires RunSteps(before).1 && After(RunSteps(before).0, steps).Some?
    ensures RunSteps(before + steps) == (After(RunSteps(before).0, steps).value, true)
  {
    hide Enabled, Next;
    if steps == [] {
      assert before + steps == before;
    } else {
      assert (before + steps)[..|before + steps| - 1] == before + steps[..|steps| - 1];
      AfterIsRun(before, steps[..|steps| - 1]);
    }
  }

  // ---------------------------------------------------------------------------
  // What one task keeps
  // ---------------------------------------------------------------------------

  // How many events a task has got past.
  function Handled(t: Task): nat {
    if (t.phase.Recording? || t.phase.Delivering?) && t.yielded != [] then |t.yielded| - 1 else |t.yielded|
  }

  ghost predicate EffectsOk(t: Task) {
    match t.phase
    case Recording(event) =>
      && t.yielded != [] && event == t.yielded[|t.yielded| - 1]
      && t.effects == Effects(t.yielded[..|t.yielded| - 1])
    case Delivering(event) =>
      t.yielded != [] && event == t.yielded[|t.yielded| - 1] && t.effects == Effects(t.yielded)
    case Aborted =>
      || t.effects == Effects(t.yielded)
      || (t.yielded != [] && t.effects == Effects(t.yielded[..|t.yielded| - 1]))
    case _ => t.effects == Effects(t.yielded)
  }

  ghost predicate DeliveryOk(t: Task) {
    && t.received <= |t.sent| <= Handled(t)
    && t.sent == t.yielded[..|t.sent|]
    && (t.deliver && !t.phase.Aborted? ==> |t.sent| == Handled(t))
    && (t.phase.Delivering? ==> t.deliver)
    && (!t.deliver ==> !t.connected || t.cancelled)
    && (t.stopped || t.phase.Aborted? ==> t.cancelled)
  }

  lemma TaskStepKeepsEffects(t: Task, step: Step)
    requires EffectsOk(t) && TaskCan(t, step)
    ensures EffectsOk(TaskStep(t, step))
  {
    if step.Yield? {
      assert (t.yielded + [step.event])[..|t.yielded|] == t.yielded;
    }
  }

  lemma TaskStepKeepsDelivery(t: Task, step: Step)
    requires DeliveryOk(t) && EffectsOk(t) && TaskCan(t, step)
    ensures DeliveryOk(TaskStep(t, step))
  {
    hide Effects;
  }

  lemma AbortKeeps(t: Task)
    requires DeliveryOk(t) && EffectsOk(t)
    ensures EffectsOk(Abort(t))
    ensures t.cancelled ==> DeliveryOk(Abort(t))
  {
    hide Effects;
  }

  // ---------------------------------------------------------------------------
  // What the whole world keeps
  // ---------------------------------------------------------------------------

  ghost predicate TasksOk(w: World) {
    forall i :: 0 <= i < |w.tasks| ==> EffectsOk(w.tasks[i]) && DeliveryOk(w.tasks[i])
  }

  // Ids grow with the order of starting, and the next one is new.
  ghost predicate IdsOk(w: World) {
    && (forall i, j :: 0 <= i < j < |w.tasks| ==> w.tasks[i].id < w.tasks[j].id)
    && (forall i :: 0 <= i < |w.tasks| ==> w.tasks[i].id < w.nextId)
  }

  // The table leads from an id to the run started with it, every run that can still
  // do something is in the table, and finished messages are about runs that ended.
  ghost predicate TableOk(w: World) {
    && (forall id :: id in w.runs ==> w.runs[id] < |w.tasks| && w.tasks[w.runs[id]].id == id)
    && (forall i :: 0 <= i < |w.tasks| && !Settled(w.tasks[i].phase) ==>
          w.tasks[i].id in w.runs && w.runs[w.tasks[i].id] == i)
    && (forall k :: 0 <= k < |w.finished| ==> w.finished[k] < w.nextId)
    && (forall k, i :: 0 <= k < |w.finished| && 0 <= i < |w.tasks| && w.finished[k] == w.tasks[i].id ==>
          w.tasks[i].phase.Ended?)
    && (w.mode.Closed? ==> w.runs == map[])
    && (!w.mode.Serving? ==> forall id :: id in w.runs ==> w.runs[id] < |w.tasks| && w.tasks[w.runs[id]].cancelled)
  }

  ghost predicate Inv(w: World) {
    TasksOk(w) && IdsOk(w) && TableOk(w)
  }

  lemma StepKeepsTasks(w: World, step: Step)
    requires Inv(w) && Enabled(w, step)
    ensures TasksOk(Next(w, step))
  {
    hide EffectsOk, DeliveryOk, TaskStep, TaskCan, IdsOk, Abort, Effects, Handled;
    if IsTaskStep(step) {
      TaskStepKeepsEffects(w.tasks[step.task], step);
      TaskStepKeepsDelivery(w.tasks[step.task], step);
    } else {
      match step {
        case Run(_) => NewTaskOk(w.nextId);
        case Cancel(id) =>
          if id in w.runs {
            StoppingIsOk(w.tasks[w.runs[id]], w.tasks[w.runs[id]].stopped);
          }
        case Terminate(id) =>
          if id in w.runs {
            StoppingIsOk(w.tasks[w.runs[id]], true);
            AbortKeeps(w.tasks[w.runs[id]].(cancelled := true, stopped := true));
          }
        case BeginShutdown =>
          forall i | 0 <= i < |w.tasks| ensures EffectsOk(StopAll(w)[i]) && DeliveryOk(StopAll(w)[i]) {
            StoppingIsOk(w.tasks[i], true);
          }
        case TimeOut(id) => AbortKeeps(w.tasks[w.runs[id]]);
        case _ =>
      }
    }
  }

  lemma NewTaskOk(id: nat)
    ensures EffectsOk(NewTask(id)) && DeliveryOk(NewTask(id))
  {
  }

  lemma StoppingIsOk(t: Task, stopped: bool)
    requires EffectsOk(t) && DeliveryOk(t)
    ensures
      var after := t.(cancelled := true, stopped := stopped);
      EffectsOk(after) && DeliveryOk(after)
  {
    hide Effects;
  }

  lemma TaskStepFrame(t: Task, step: Step)
    requires TaskCan(t, step)
    ensures TaskStep(t, step).id == t.id && TaskStep(t, step).cancelled == t.cancelled
    ensures step.End? ==> TaskStep(t, step).phase.Ended?
    ensures !step.End? ==> (Settled(t.phase) <==> Settled(TaskStep(t, step).phase))
    ensures t.phase.Ended? ==> TaskStep(t, step).phase.Ended?
  {
  }

  lemma StepKeepsIds(w: World, step: Step)
    requires IdsOk(w) && Enabled(w, step)
    ensures IdsOk(Next(w, step))
  {
    hide TaskCan, TaskStep;
    if IsTaskStep(step) {
      TaskStepFrame(w.tasks[step.task], step);
    } else {
      var after := Next(w, step);
      if !step.Run? {
        forall i | 0 <= i < |w.tasks| ensures after.tasks[i].id == w.tasks[i].id {
        }
      }
    }
  }

  lemma ReplacedTaskKeepsTable(w: World, i: nat, t: Task)
    requires TableOk(w) && i < |w.tasks|
    requires t.id == w.tasks[i].id && t.cancelled == w.tasks[i].cancelled
    requires Settled(t.phase) <==> Settled(w.tasks[i].phase)
    requires w.tasks[i].phase.Ended? ==> t.phase.Ended?
    ensures TableOk(w.(tasks := w.tasks[i := t]))
  {
    hide Settled;
  }

  lemma TaskStepKeepsTable(w: World, step: Step)
    requires TableOk(w) && Enabled(w, step) && IsTaskStep(step) && !step.End?
    ensures TableOk(Next(w, step))
  {
    hide TaskCan, TaskStep, Settled, TableOk;
    TaskStepFrame(w.tasks[step.task], step);
    ReplacedTaskKeepsTable(w, step.task, TaskStep(w.tasks[step.task], step));
  }

  lemma EndKeepsTable(w: World, step: Step)
    requires IdsOk(w) && TableOk(w) && Enabled(w, step) && step.End?
    ensures TableOk(Next(w, step))
  {
    hide TaskCan, TaskStep;
    TaskStepFrame(w.tasks[step.task], step);
  }

  lemma RunKeepsTable(w: World, step: Step)
    requires IdsOk(w) && TableOk(w) && Enabled(w, step) && step.Run?
    ensures TableOk(Next(w, step))
  {
    hide TaskCan, TaskStep, Settled;
  }

  lemma AbortKeepsTable(w: World, step: Step)
    requires IdsOk(w) && TableOk(w) && Enabled(w, step)
    requires step.Terminate? || step.TimeOut?
    ensures TableOk(Next(w, step))
  {
    hide TaskCan, TaskStep;
  }

  lemma RemovalKeepsTable(w: World, step: Step)
    requires IdsOk(w) && TableOk(w) && Enabled(w, step)
    requires step.RunFinished? || step.Join?
    ensures TableOk(Next(w, step))
  {
    hide TaskCan, TaskStep;
  }

  lemma StopKeepsTable(w: World, step: Step)
    requires IdsOk(w) && TableOk(w) && Enabled(w, step)
    requires step.Cancel? || step.BeginShutdown? || step.EndShutdown?
    ensures TableOk(Next(w, step))
  {
    hide TaskCan, TaskStep, Settled;
  }

  lemma StepKeepsTable(w: World, step: Step)
    requires IdsOk(w) && TableOk(w) && Enabled(w, step)
    ensures TableOk(Next(w, step))
  {
    hide TableOk, IdsOk, Enabled, Next;
    if IsTaskStep(step) {
      if step.End? {
        EndKeepsTable(w, step);
      } else {
        TaskStepKeepsTable(w, step);
      }
    } else {
      match step {
        case Run(_) => RunKeepsTable(w, step);
        case Cancel(_) => StopKeepsTable(w, step);
        case BeginShutdown => StopKeepsTable(w, step);
        case EndShutdown => StopKeepsTable(w, step);
        case Terminate(_) => AbortKeepsTable(w, step);
        case TimeOut(_) => AbortKeepsTable(w, step);
        case _ => RemovalKeepsTable(w, step);
      }
    }
  }

  lemma StepKeepsInv(w: World, step: Step)
    requires Inv(w) && Enabled(w, step)
    ensures Inv(Next(w, step))
  {
    hide Enabled, Next, TasksOk, IdsOk, TableOk;
    StepKeepsTasks(w, step);
    StepKeepsIds(w, step);
    StepKeepsTable(w, step);
  }

  lemma {:induction false} EveryRun(steps: seq<Step>)
    requires RunSteps(steps).1
    ensures Inv(RunSteps(steps).0)
  {
    hide Enabled, Next, Inv;
    if steps == [] {
      StartIsOk();
    } else {
      EveryRun(steps[..|steps| - 1]);
      StepKeepsInv(RunSteps(steps[..|steps| - 1]).0, steps[|steps| - 1]);
    }
  }

  lemma StartIsOk()
    ensures Inv(Start())
  {
  }

  // ---------------------------------------------------------------------------
  // What that means
  // ---------------------------------------------------------------------------

  // A caller receives a prefix of its run's stream, and delivery stops early only for
  // a caller that left or a run that was cancelled: anyone else is sent everything.
  lemma DeliveredIsPrefix(steps: seq<Step>, i: nat)
    requires RunSteps(steps).1 && i < |RunSteps(steps).0.tasks|
    ensures
      var t := RunSteps(steps).0.tasks[i];
      && t.received <= |t.sent| <= |t.yielded|
      && t.sent[..t.received] == t.yielded[..t.received]
      && t.sent == t.yielded[..|t.sent|]
      && (t.phase.Ended? && t.connected && !t.cancelled ==> t.sent == t.yielded)
  {
    hide Effects;
    EveryRun(steps);
  }

  // The side effects of a run are those of its whole stream, whoever stopped
  // listening; an aborted run may miss those of its last event only.
  lemma EffectsCoverStream(steps: seq<Step>, i: nat)
    requires RunSteps(steps).1 && i < |RunSteps(steps).0.tasks|
    ensures
      var t := RunSteps(steps).0.tasks[i];
      && (t.phase.Ended? || t.phase.Polling? ==> t.effects == Effects(t.yielded))
      && (t.effects == Effects(t.yielded) || (t.yielded != [] && t.effects == Effects(t.yielded[..|t.yielded| - 1])))
    ensures
      var t := RunSteps(steps).0.tasks[i];
      && (t.phase.Ended? || t.phase.Polling? ==> Recorded(t.yielded, t.effects))
      && (Recorded(t.yielded, t.effects) || (t.yielded != [] && Recorded(t.yielded[..|t.yielded| - 1], t.effects)))
  {
    hide Effects, RunSteps, Recorded;
    EveryRun(steps);
    var t := RunSteps(steps).0.tasks[i];
    EffectsAreRecorded(t.yielded);
    if t.yielded != [] {
      EffectsAreRecorded(t.yielded[..|t.yielded| - 1]);
    }
  }

  // No id is given twice, whether or not the runs in between could start.
  lemma IdsAreNeverReused(steps: seq<Step>, i: nat, j: nat)
    requires RunSteps(steps).1 && i < |RunSteps(steps).0.tasks| && j < |RunSteps(steps).0.tasks|
    requires RunSteps(steps).0.tasks[i].id == RunSteps(steps).0.tasks[j].id
    ensures i == j
  {
    hide RunSteps;
    EveryRun(steps);
  }

  // A finished message, however late, removes nothing but the ended run it is about.
  lemma LateFinishIsHarmless(steps: seq<Step>)
    requires RunSteps(steps).1 && Enabled(RunSteps(steps).0, RunFinished)
    ensures
      var before, after := RunSteps(steps).0, Next(RunSteps(steps).0, RunFinished);
      && after.tasks == before.tasks && before.finished[0] !in after.runs
      && (forall id :: id in after.runs ==> id in before.runs && after.runs[id] == before.runs[id])
      && (forall id :: id in before.runs && id !in after.runs ==>
            id == before.finished[0] && before.runs[id] < |before.tasks| && before.tasks[before.runs[id]].phase.Ended?)
  {
    hide RunSteps, TasksOk;
    EveryRun(steps);
  }

  // A command names a run by id, and reaches that run and no other.
  lemma CommandsReachTheirRun(steps: seq<Step>, i: nat)
    requires RunSteps(steps).1 && i < |RunSteps(steps).0.tasks| && RunSteps(steps).0.mode.Serving?
    requires !Settled(RunSteps(steps).0.tasks[i].phase)
    ensures
      var w := RunSteps(steps).0;
      var id := w.tasks[i].id;
      && Enabled(w, Cancel(id)) && Enabled(w, Terminate(id))
      && Next(w, Cancel(id)) == w.(tasks := w.tasks[i := w.tasks[i].(cancelled := true)])
      && var after := Next(w, Terminate(id));
         && after.runs == w.runs - {id} && |after.tasks| == |w.tasks| && after.tasks[i].phase.Aborted?
         && forall j :: 0 <= j < |w.tasks| && j != i ==> after.tasks[j] == w.tasks[j]
  {
    hide RunSteps, TasksOk;
    EveryRun(steps);
  }

  // Every run that is not over can be cancelled by its id, in every state.
  lemma LiveRunsAreTabled(steps: seq<Step>, i: nat)
    requires RunSteps(steps).1 && i < |RunSteps(steps).0.tasks| && !Settled(RunSteps(steps).0.tasks[i].phase)
    ensures
      var w := RunSteps(steps).0;
      w.tasks[i].id in w.runs && w.runs[w.tasks[i].id] == i && !w.mode.Closed?
  {
    hide RunSteps, TasksOk;
    EveryRun(steps);
  }

  // After shutdown the table is empty and every run has ended or was aborted.
  lemma ShutdownSettlesAll(steps: seq<Step>)
    requires RunSteps(steps).1 && RunSteps(steps).0.mode.Closed?
    ensures
      var w := RunSteps(steps).0;
      w.runs == map[] && forall i :: 0 <= i < |w.tasks| ==> Settled(w.tasks[i].phase)
  {
    hide RunSteps, TasksOk;
    EveryRun(steps);
  }

  // Shutdown can always go on: while it drains, any tabled run can be waited for too
  // long, and that takes it out of the table.
  lemma ShutdownCanFinish(steps: seq<Step>)
    requires RunSteps(steps).1 && RunSteps(steps).0.mode.Draining?
    ensures
      var w := RunSteps(steps).0;
      if w.runs == map[] then Enabled(w, EndShutdown)
      else forall id :: id in w.runs ==> Enabled(w, TimeOut(id)) && Next(w, TimeOut(id)).runs == w.runs - {id}
  {
    hide RunSteps, TasksOk;
    EveryRun(steps);
  }
}
