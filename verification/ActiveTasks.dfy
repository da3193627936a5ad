/** The table of active tasks and the guards that clean it (`src/a2a_channel.rs`).

Several runs may share a task id: a later run then replaces an earlier one's entry.
Each run holds a guard that removes the run's own entry, at once when the run
finishes, or from a spawned cleanup when its stream is dropped.
*/
module ActiveTasks {

  // A session and the id of the run that controls it. Run ids are never reused.
  datatype Active = Active(sessionId: string, runId: nat)

  type Table = map<string, Active>

  // The entry goes only if it is still this run's.
  function RemoveOwn(table: Table, taskId: string, runId: nat): Table {
    if taskId in table && table[taskId].runId == runId then table - {taskId} else table
  }

  class ActiveTable {
    var active: Table

    constructor ()
      ensures active == map[]
    {
      active := map[];
    }

    method Insert(taskId: string, sessionId: string, runId: nat)
      modifies this
      ensures active == old(active)[taskId := Active(sessionId, runId)]
    {
      active := active[taskId := Active(sessionId, runId)];
    }

    method Remove(taskId: string)
      modifies this
      ensures active == old(active) - {taskId}
    {
      active := active - {taskId};
    }
  }

  // ---------------------------------------------------------------------------
  // Any number of runs, in any interleaving
  // ---------------------------------------------------------------------------

  datatype Phase = Live | Dropped | Finished | Cancelled | Lost

  datatype Guard = Guard(taskId: string, phase: Phase)

  // `latest` remembers the last run started for each task id.
  datatype World = World(active: Table, guards: map<nat, Guard>, latest: map<string, nat>)

  datatype Step =
    | Start(taskId: string, sessionId: string, runId: nat)
    | Finish(runId: nat)
    | Drop(runId: nat, inRuntime: bool)
    | Cleanup(runId: nat)

  predicate Enabled(w: World, step: Step) {
    match step
    case Start(_, _, runId) => runId !in w.guards
    case Finish(runId) => runId in w.guards && w.guards[runId].phase == Live
    case Drop(runId, _) => runId in w.guards && w.guards[runId].phase == Live
    case Cleanup(runId) => runId in w.guards && w.guards[runId].phase == Dropped
  }

  function Next(w: World, step: Step): World
    requires Enabled(w, step)
  {
    match step
    case Start(taskId, sessionId, runId) =>
      World(w.active[taskId := Active(sessionId, runId)], w.guards[runId := Guard(taskId, Live)], w.latest[taskId := runId])
    case Finish(runId) => Settled(w, runId, Finished)
    case Drop(runId, inRuntime) =>
      w.(guards := w.guards[runId := w.guards[runId].(phase := if inRuntime then Dropped else Lost)])
    case Cleanup(runId) => Settled(w, runId, Cancelled)
  }

  function Settled(w: World, runId: nat, phase: Phase): World
    requires runId in w.guards
  {
    var taskId := w.guards[runId].taskId;
    w.(active := RemoveOwn(w.active, taskId, runId), guards := w.guards[runId := Guard(taskId, phase)])
  }

  // A guard as the code has it: its own fields and the shared table. Each method is a
  // step of the world, whatever other runs that world holds.
  class ActiveApplicationTask {
    const taskId: string
    const runId: nat
    const table: ActiveTable
    var finished: bool
    var cancelRequested: bool
    ghost var phase: Phase

    // This guard and its table are part of a world.
    ghost predicate In(w: World)
      reads this, table
    {
      && w.active == table.active
      && runId in w.guards && w.guards[runId] == Guard(taskId, phase)
      && (finished <==> phase == Finished) && (cancelRequested <==> phase == Cancelled)
    }

    constructor (taskId: string, sessionId: string, runId: nat, table: ActiveTable, ghost w: World)
      requires w.active == table.active && runId !in w.guards
      modifies table
      ensures this.taskId == taskId && this.runId == runId && this.table == table && phase == Live
      ensures In(Next(w, Start(taskId, sessionId, runId)))
    {
      this.taskId, this.runId, this.table := taskId, runId, table;
      finished, cancelRequested, phase := false, false, Live;
      new;
      table.Insert(taskId, sessionId, runId);
    }

    method Finish(ghost w: World)
      requires In(w) && phase == Live
      modifies this, table
      ensures Enabled(w, Step.Finish(runId)) && In(Next(w, Step.Finish(runId)))
    {
      if taskId in table.active && table.active[taskId].runId == runId {
        table.Remove(taskId);
      }
      finished, phase := true, Finished;
    }

    // Dropping a finished guard does nothing; dropping a live one leaves a cleanup to
    // run, or, outside an async runtime, leaves its entry for good.
    method Drop(inRuntime: bool, ghost w: World) returns (spawned: bool)
      requires In(w) && phase in {Live, Finished}
      modifies this`phase
      ensures if finished then In(w) && !spawned
              else Enabled(w, Step.Drop(runId, inRuntime)) && In(Next(w, Step.Drop(runId, inRuntime)))
                   && (spawned <==> Enabled(Next(w, Step.Drop(runId, inRuntime)), Step.Cleanup(runId)))
    {
      if finished {
        return false;
      }
      phase := if inRuntime then Dropped else Lost;
      return inRuntime;
    }

    method Cleanup(ghost w: World)
      requires In(w) && phase == Dropped
      modifies this, table
      ensures Enabled(w, Step.Cleanup(runId)) && In(Next(w, Step.Cleanup(runId)))
    {
      if taskId in table.active && table.active[taskId].runId == runId {
        table.Remove(taskId);
      }
      cancelRequested, phase := true, Cancelled;
    }
  }

  function Run(steps: seq<Step>): (World, bool) {
    if steps == [] then (World(map[], map[], map[]), true)
    else
      var (before, ok) := Run(steps[..|steps| - 1]);
      var step := steps[|steps| - 1];
      if ok && Enabled(before, step) then (Next(before, step), true) else (before, false)
  }

  // A run begins with no runs and goes on with any step that can happen.
  lemma StepsRun(steps: seq<Step>, step: Step)
    ensures Run([]) == (World(map[], map[], map[]), true)
    ensures Run(steps).1 && Enabled(Run(steps).0, step) ==> Run(steps + [step]) == (Next(Run(steps).0, step), true)
  {
    assert (steps + [step])[..|steps|] == steps;
  }

  predicate Holds(phase: Phase) {
    phase in {Live, Dropped, Lost}
  }

  // The table is exactly the latest run of each task id, until that run's own guard
  // has cleaned up.
  ghost predicate Inv(w: World) {
    && (forall taskId :: taskId in w.latest ==>
          w.latest[taskId] in w.guards && w.guards[w.latest[taskId]].taskId == taskId)
    && (forall taskId :: taskId in w.active <==> taskId in w.latest && Holds(w.guards[w.latest[taskId]].phase))
    && (forall taskId :: taskId in w.active ==> w.active[taskId].runId == w.latest[taskId])
  }

  lemma StepKeepsInv(w: World, step: Step)
    requires Inv(w) && Enabled(w, step)
    ensures Inv(Next(w, step))
  {
  }

  lemma {:induction false} EveryRun(steps: seq<Step>)
    requires Run(steps).1
    ensures Inv(Run(steps).0)
  {
    hide Enabled, Next;
    if steps != [] {
      EveryRun(steps[..|steps| - 1]);
      StepKeepsInv(Run(steps[..|steps| - 1]).0, steps[|steps| - 1]);
    }
  }

  // No guard ever removes another run's entry, and every entry belongs to a guard
  // that has not cleaned up yet.
  lemma GuardsRemoveOnlyTheirOwn(steps: seq<Step>, step: Step)
    requires Run(steps).1 && Enabled(Run(steps).0, step)
    ensures
      var before, after := Run(steps).0.active, Next(Run(steps).0, step).active;
      && (forall taskId :: taskId in before && taskId !in after ==> before[taskId].runId == step.runId)
      && (forall taskId :: taskId in before && taskId in after && before[taskId] != after[taskId] ==>
            step.Start? && step.taskId == taskId)
    ensures
      var w := Run(steps).0;
      forall taskId :: taskId in w.active ==>
        && w.active[taskId].runId in w.guards
        && w.guards[w.active[taskId].runId].taskId == taskId
        && Holds(w.guards[w.active[taskId].runId].phase)
  {
    EveryRun(steps);
  }

  // Once every guard is done, the table is empty exactly if no task id's latest run
  // was dropped where no cleanup could be spawned.
  lemma EmptyWhenAllGuardsAreDone(steps: seq<Step>)
    requires Run(steps).1
    requires forall r :: r in Run(steps).0.guards ==> Run(steps).0.guards[r].phase in {Finished, Cancelled, Lost}
    ensures
      var w := Run(steps).0;
      w.active == map[] <==>
        forall taskId :: taskId in w.latest ==> w.latest[taskId] in w.guards && w.guards[w.latest[taskId]].phase != Lost
  {
    EveryRun(steps);
    var w := Run(steps).0;
    if w.active == map[] {
      forall taskId | taskId in w.latest ensures w.guards[w.latest[taskId]].phase != Lost {
        assert taskId !in w.active;
      }
    } else {
      var taskId :| taskId in w.active;
      assert w.guards[w.latest[taskId]].phase == Lost;
    }
  }
}
