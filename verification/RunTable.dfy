/** The command loop and the loop of one run, as `src/application.rs` updates them.

Every handler of the command loop is one step of `Dispatch`, and the loop of a run is a
sequence of its steps, so what `Dispatch` proves of all sequences holds of this code.
*/
module RunTable {
  import opened Text
  import opened ApplicationEvents
  import opened Dispatch

  // The tasks are what the table's tokens and join handles reach.
  class Dispatcher {
    var nextId: nat
    var runs: map<nat, nat>
    var tasks: seq<Task>
    var finished: seq<nat>
    var mode: Mode

    function View(): World
      reads this
    {
      World(nextId, runs, tasks, finished, mode)
    }

    ghost predicate Valid()
      reads this
    {
      Inv(View())
    }

    constructor ()
      ensures Valid() && View() == Start()
    {
      nextId, runs, tasks, finished, mode := 0, map[], [], [], Serving;
      new;
      StartIsOk();
    }

    // A run that cannot start still uses up its id.
    method StartRun(sessionFound: bool) returns (started: Option<nat>)
      requires Valid() && mode.Serving?
      modifies this
      ensures Valid() && View() == Next(old(View()), Run(sessionFound))
      ensures started == if sessionFound then Some(old(nextId)) else None
    {
      StepKeepsInv(View(), Run(sessionFound));
      var id := nextId;
      nextId := nextId + 1;
      if !sessionFound {
        return None;
      }
      tasks := tasks + [NewTask(id)];
      runs := runs[id := |tasks| - 1];
      return Some(id);
    }

    method CancelRun(id: nat, force: bool) returns (found: bool)
      requires Valid() && mode.Serving?
      modifies this
      ensures Valid()
      ensures
        var step := if force then Terminate(id) else Cancel(id);
        Enabled(old(View()), step) && View() == Next(old(View()), step)
      ensures found == (id in old(runs))
    {
      CancelIsStep(View(), id, force);
      hide Inv, Enabled, Next, Abort;
      if id !in runs {
        return false;
      }
      var i := runs[id];
      if force {
        runs := runs - {id};
        var run := tasks[i].(stopped := true);
        run := run.(cancelled := true);
        tasks := tasks[i := Abort(run)];
      } else {
        tasks := tasks[i := tasks[i].(cancelled := true)];
      }
      return true;
    }

    method HandleFinished()
      requires Valid() && mode.Serving? && finished != []
      modifies this
      ensures Valid() && View() == Next(old(View()), RunFinished)
    {
      StepKeepsInv(View(), RunFinished);
      var id := finished[0];
      finished := finished[1..];
      runs := runs - {id};
    }

    // What runs and callers do while the loop waits.
    method Await(progress: seq<Step>) returns (ghost steps: seq<Step>)
      requires Valid()
      modifies this`tasks, this`finished
      ensures Valid() && After(old(View()), steps) == Some(View())
      ensures View() == Progressed(old(View()), progress)
    {
      hide Enabled, Next, Inv;
      steps := [];
      for k := 0 to |progress|
        invariant Valid() && After(old(View()), steps) == Some(View())
        invariant View() == Progressed(old(View()), progress[..k])
      {
        var step := progress[k];
        assert progress[..k + 1][..k] == progress[..k];
        if IsTaskStep(step) && Enabled(View(), step) {
          StepKeepsInv(View(), step);
          AfterSnoc(old(View()), steps, step);
          TaskStepKeepsTableFields(View(), step);
          steps := steps + [step];
          var after := Next(View(), step);
          tasks, finished := after.tasks, after.finished;
        }
      }
      assert progress[..|progress|] == progress;
    }

    method TellAllToStop()
      requires Valid()
      modifies this`tasks
      ensures tasks == StopAll(old(View()))
    {
      ghost var before := View();
      NothingStopped(before);
      hide Inv, StopSome;
      var pending := runs.Keys;
      while pending != {}
        invariant pending <= runs.Keys && tasks == StopSome(before, pending)
        decreases |pending|
      {
        var id :| id in pending;
        StopOne(before, pending, id);
        var i := runs[id];
        var run := tasks[i].(stopped := true);
        run := run.(cancelled := true);
        tasks := tasks[i := run];
        pending := pending - {id};
      }
      AllStopped(before);
    }

    // Waits for one run, which makes progress of its own meanwhile, and aborts it if it
    // is not over then.
    method DrainOne(id: nat, progress: seq<Step>) returns (ghost steps: seq<Step>)
      requires Valid() && mode.Draining? && id in runs
      modifies this`runs, this`tasks, this`finished
      ensures Valid() && After(old(View()), steps) == Some(View())
      ensures View() == DrainedOne(old(View()), id, progress) && runs == old(runs) - {id}
    {
      ghost var before := View();
      steps := Await(progress);
      hide Inv, After, Abort, Settled;
      steps := DrainIsStep(before, steps, View(), id);
      var i := runs[id];
      if !Settled(tasks[i].phase) {
        tasks := tasks[i := Abort(tasks[i])];
      }
      runs := runs - {id};
    }

    method Drain(progress: nat -> seq<Step>) returns (ghost steps: seq<Step>)
      requires Valid() && mode.Draining?
      modifies this`runs, this`tasks, this`finished
      ensures Valid() && After(old(View()), steps) == Some(View()) && runs == map[]
      ensures exists order :: View() == Drained(old(View()), order, progress)
    {
      ghost var before := View();
      steps := [];
      ghost var order := [];
      assert After(before, []) == Some(before);
      DrainedNothing(before, progress);
      hide *;
      while runs != map[]
        invariant Valid() && After(before, steps) == Some(View())
        invariant View() == Drained(before, order, progress)
        decreases runs.Keys
      {
        var id :| id in runs;
        ghost var more := DrainOne(id, progress(id));
        AfterConcat(before, steps, more);
        steps := steps + more;
        DrainedSnoc(before, order, id, progress);
        order := order + [id];
      }
    }

    // Shutdown is a sequence of steps, after which the loop is over and the table empty.
    method Shutdown(progress: nat -> seq<Step>) returns (ghost steps: seq<Step>)
      requires Valid() && mode.Serving?
      modifies this
      ensures Valid() && After(old(View()), steps) == Some(View())
      ensures mode.Closed? && runs == map[]
      ensures
        var told := old(View()).(tasks := StopAll(old(View())), mode := Draining);
        exists order :: View() == Drained(told, order, progress).(mode := Closed)
    {
      ghost var before := View();
      BeginIsStep(before);
      TellAllToStop();
      mode := Draining;
      hide Inv, After, StopAll;
      ghost var more := Drain(progress);
      AfterConcat(before, [BeginShutdown], more);
      EndIsStep(before, [BeginShutdown] + more, View());
      mode := Closed;
      steps := [BeginShutdown] + more + [EndShutdown];
    }
  }

  // What has become of a world once some steps of runs and callers were taken, of which
  // those that cannot be are left out.
  function Progressed(w: World, progress: seq<Step>): World {
    if progress == [] then w
    else
      var before, step := Progressed(w, progress[..|progress| - 1]), progress[|progress| - 1];
      if IsTaskStep(step) && Enabled(before, step) then Next(before, step) else before
  }

  // One run is waited for: it leaves the table, and is aborted only if it is not over
  // by then.
  function DrainedOne(w: World, id: nat, progress: seq<Step>): World {
    var after := Progressed(w, progress);
    after.(runs := after.runs - {id},
           tasks := if id in after.runs && after.runs[id] < |after.tasks|
                       && !after.tasks[after.runs[id]].phase.Ended? && !after.tasks[after.runs[id]].phase.Aborted?
                    then after.tasks[after.runs[id] := after.tasks[after.runs[id]].(phase := Aborted)] else after.tasks)
  }

  // All runs are waited for in some order.
  function Drained(w: World, order: seq<nat>, progress: nat -> seq<Step>): World {
    if order == [] then w
    else
      var last := order[|order| - 1];
      DrainedOne(Drained(w, order[..|order| - 1], progress), last, progress(last))
  }

  lemma DrainedNothing(w: World, progress: nat -> seq<Step>)
    ensures Drained(w, [], progress) == w
  {
  }

  lemma DrainedSnoc(w: World, order: seq<nat>, id: nat, progress: nat -> seq<Step>)
    ensures Drained(w, order + [id], progress) == DrainedOne(Drained(w, order, progress), id, progress(id))
  {
    assert (order + [id])[..|order|] == order;
  }

  // The tokens of the tabled runs but the pending ones are cancelled.
  function StopSome(w: World, pending: set<nat>): (tasks: seq<Task>)
    ensures |tasks| == |w.tasks|
  {
    seq(|w.tasks|, i requires 0 <= i < |w.tasks| =>
      var t := w.tasks[i];
      if t.id in w.runs && w.runs[t.id] == i && t.id !in pending then t.(cancelled := true, stopped := true) else t)
  }

  lemma NothingStopped(w: World)
    ensures StopSome(w, w.runs.Keys) == w.tasks
  {
  }

  lemma AllStopped(w: World)
    ensures StopSome(w, {}) == StopAll(w)
  {
  }

  lemma StopOne(w: World, pending: set<nat>, id: nat)
    requires Inv(w) && pending <= w.runs.Keys && id in pending
    ensures w.runs[id] < |w.tasks|
    ensures
      var i := w.runs[id];
      StopSome(w, pending - {id})
      == StopSome(w, pending)[i := StopSome(w, pending)[i].(stopped := true, cancelled := true)]
  {
    TabledIdsAreTheirs(w);
    hide Inv;
    var before, after, i := StopSome(w, pending), StopSome(w, pending - {id}), w.runs[id];
    forall j | 0 <= j < |after| && j != i ensures after[j] == before[j] {
    }
  }

  lemma CancelIsStep(w: World, id: nat, force: bool)
    requires Inv(w) && w.mode.Serving?
    ensures
      var step := if force then Terminate(id) else Cancel(id);
      && Enabled(w, step) && Inv(Next(w, step))
      && (id in w.runs ==> w.runs[id] < |w.tasks|)
      && Next(w, step)
         == if id !in w.runs then w
            else
              var i := w.runs[id];
              if force then
                w.(runs := w.runs - {id}, tasks := w.tasks[i := Abort(w.tasks[i].(stopped := true, cancelled := true))])
              else w.(tasks := w.tasks[i := w.tasks[i].(cancelled := true)])
  {
    TabledIdsAreTheirs(w);
    StepKeepsInv(w, if force then Terminate(id) else Cancel(id));
    hide Inv;
  }

  lemma DrainIsStep(start: World, steps: seq<Step>, w: World, id: nat) returns (longer: seq<Step>)
    requires After(start, steps) == Some(w) && Inv(w) && w.mode.Draining? && id in w.runs
    ensures w.runs[id] < |w.tasks|
    ensures
      var i := w.runs[id];
      var after := w.(runs := w.runs - {id},
                      tasks := if Settled(w.tasks[i].phase) then w.tasks else w.tasks[i := Abort(w.tasks[i])]);
      After(start, longer) == Some(after) && Inv(after)
  {
    TabledIdsAreTheirs(w);
    var last := if Settled(w.tasks[w.runs[id]].phase) then Join(id) else TimeOut(id);
    LeaveIsStep(w, id, last);
    hide Inv, After, Enabled, Next;
    StepKeepsInv(w, last);
    AfterSnoc(start, steps, last);
    longer := steps + [last];
  }

  lemma LeaveIsStep(w: World, id: nat, step: Step)
    requires w.mode.Draining? && Tabled(w, id)
    requires step == if Settled(w.tasks[w.runs[id]].phase) then Join(id) else TimeOut(id)
    ensures Enabled(w, step)
    ensures
      var i := w.runs[id];
      Next(w, step)
      == w.(runs := w.runs - {id},
            tasks := if Settled(w.tasks[i].phase) then w.tasks else w.tasks[i := Abort(w.tasks[i])])
  {
  }

  lemma TaskStepKeepsTableFields(w: World, step: Step)
    requires IsTaskStep(step) && Enabled(w, step)
    ensures Next(w, step).nextId == w.nextId && Next(w, step).runs == w.runs && Next(w, step).mode == w.mode
  {
  }

  lemma TabledIdsAreTheirs(w: World)
    requires Inv(w)
    ensures forall id :: id in w.runs ==> w.runs[id] < |w.tasks| && w.tasks[w.runs[id]].id == id
  {
  }

  lemma BeginIsStep(w: World)
    requires Inv(w) && w.mode.Serving?
    ensures After(w, [BeginShutdown]) == Some(w.(tasks := StopAll(w), mode := Draining))
    ensures Inv(w.(tasks := StopAll(w), mode := Draining))
  {
    StepKeepsInv(w, BeginShutdown);
    hide Inv;
    assert After(w, []) == Some(w);
    AfterSnoc(w, [], BeginShutdown);
    assert [] + [BeginShutdown] == [BeginShutdown];
  }

  lemma EndIsStep(start: World, steps: seq<Step>, w: World)
    requires After(start, steps) == Some(w) && Inv(w) && w.mode.Draining? && w.runs == map[]
    ensures After(start, steps + [EndShutdown]) == Some(w.(mode := Closed)) && Inv(w.(mode := Closed))
  {
    StepKeepsInv(w, EndShutdown);
    hide Inv;
    AfterSnoc(start, steps, EndShutdown);
  }
}
