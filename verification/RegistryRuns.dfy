/** Many processes changing one profile registry (`src/profile_registry.rs`).

Every process may start from any stale copy, may be interleaved with the others
between any two steps of a change, may fail in any of them and may die anywhere,
leaving the lock behind.
*/
module RegistryRuns {
  import opened Text
  import opened ProfileRegistry

  datatype Verdict = Saved | Unchanged | Failed

  datatype Phase =
    | Idle
    | Locked(operation: Operation)
    | Loaded(operation: Operation)
    | ToSave(operation: Operation)
    | Written(operation: Operation)
    | Releasing(operation: Operation, verdict: Verdict)
    | Dead

  datatype Process = Process(copy: Document, temporary: Option<Document>, phase: Phase)

  // The n-th acquisition of the lock has ticket n.
  datatype Entry = Entry(ticket: nat, operation: Operation)

  // What a caller was told, and how long the log was then.
  datatype Answer = Answer(ticket: nat, operation: Operation, verdict: Verdict, at: nat)

  datatype World = World(disk: Document, holder: Option<nat>, tickets: nat, processes: map<nat, Process>,
                         log: seq<Entry>, answers: seq<Answer>)

  datatype Step =
    | Open(pid: nat, copy: Document)
    | Acquire(pid: nat, operation: Operation)
    | Load(pid: nat)
    | Edit(pid: nat)
    | WriteTemporary(pid: nat)
    | Rename(pid: nat)
    | Fail(pid: nat)
    | Release(pid: nat)
    | Die(pid: nat)

  predicate Critical(phase: Phase) {
    !phase.Idle? && !phase.Dead?
  }

  predicate Enabled(w: World, step: Step) {
    if step.Open? then step.pid !in w.processes
    else
      step.pid in w.processes &&
      var phase := w.processes[step.pid].phase;
      match step
      case Acquire(_, _) => phase.Idle? && w.holder.None?
      case Load(_) => phase.Locked?
      case Edit(_) => phase.Loaded?
      case WriteTemporary(_) => phase.ToSave?
      case Rename(_) => phase.Written? && w.processes[step.pid].temporary.Some?
      case Fail(_) => Critical(phase) && !phase.Releasing?
      case Release(_) => phase.Releasing?
      case Die(_) => !phase.Dead?
  }

  function Become(w: World, pid: nat, process: Process): World {
    w.(processes := w.processes[pid := process])
  }

  function Next(w: World, step: Step): World
    requires Enabled(w, step)
  {
    if step.Open? then Become(w, step.pid, Process(step.copy, None, Idle))
    else
      var p := w.processes[step.pid];
      match step
      case Acquire(pid, operation) =>
        Become(w, pid, p.(phase := Locked(operation))).(holder := Some(pid), tickets := w.tickets + 1)
      case Load(pid) => Become(w, pid, p.(copy := w.disk, phase := Loaded(p.phase.operation)))
      case Edit(pid) =>
        (match Perform(p.copy, p.phase.operation)
         case Some(edited) => Become(w, pid, p.(copy := edited, phase := ToSave(p.phase.operation)))
         case None => Become(w, pid, p.(phase := Releasing(p.phase.operation, Unchanged))))
      case WriteTemporary(pid) =>
        Become(w, pid, p.(temporary := Some(p.copy), phase := Written(p.phase.operation)))
      case Rename(pid) =>
        Become(w, pid, p.(temporary := None, phase := Releasing(p.phase.operation, Saved)))
        .(disk := p.temporary.value, log := w.log + [Entry(w.tickets, p.phase.operation)])
      case Fail(pid) => Become(w, pid, p.(phase := Releasing(p.phase.operation, Failed)))
      case Release(pid) =>
        Become(w, pid, p.(phase := Idle))
        .(holder := None,
          answers := w.answers + [Answer(w.tickets, p.phase.operation, p.phase.verdict, |w.log|)])
      case Die(pid) => Become(w, pid, p.(phase := Dead))
  }

  function Run(steps: seq<Step>): (World, bool) {
    if steps == [] then (World([], None, 0, map[], [], []), true)
    else
      var (before, ok) := Run(steps[..|steps| - 1]);
      var step := steps[|steps| - 1];
      if ok && Enabled(before, step) then (Next(before, step), true) else (before, false)
  }

  // The operations of a log one after another, from the empty document. (None: one of
  // them would have been refused.)
  function Replay(log: seq<Entry>): Option<Document> {
    if log == [] then Some([])
    else
      match Replay(log[..|log| - 1])
      case None => None
      case Some(document) => Perform(document, log[|log| - 1].operation)
  }

  // ---------------------------------------------------------------------------
  // What every run keeps
  // ---------------------------------------------------------------------------

  ghost predicate TicketsIncrease(log: seq<Entry>) {
    forall i, j :: 0 <= i < j < |log| ==> log[i].ticket < log[j].ticket
  }

  // Whether the current ticket has nothing in the log yet.
  ghost predicate Unspent(w: World) {
    forall i :: 0 <= i < |w.log| ==> w.log[i].ticket < w.tickets
  }

  ghost predicate CanSave(w: World, copy: Document, operation: Operation) {
    Unspent(w) && Perform(w.disk, operation) == Some(copy)
  }

  // What the process inside the lock relies on.
  ghost predicate HolderOk(w: World, p: Process) {
    match p.phase
    case Locked(_) => Unspent(w)
    case Loaded(_) => Unspent(w) && p.copy == w.disk
    case ToSave(operation) => CanSave(w, p.copy, operation)
    case Written(operation) => CanSave(w, p.copy, operation) && p.temporary == Some(p.copy)
    case Releasing(operation, Saved) => w.log != [] && w.log[|w.log| - 1] == Entry(w.tickets, operation)
    case Releasing(operation, Unchanged) => Perform(w.disk, operation) == None
    case _ => true
  }

  ghost predicate MutualExclusion(w: World) {
    forall pid :: pid in w.processes && Critical(w.processes[pid].phase) ==> w.holder == Some(pid)
  }

  // A success is in the log under its own ticket; an operation that changed nothing
  // had nothing to do on the document of its time.
  ghost predicate Justified(log: seq<Entry>, answer: Answer) {
    && answer.at <= |log|
    && (answer.verdict == Saved ==> answer.at > 0 && log[answer.at - 1] == Entry(answer.ticket, answer.operation))
    && (answer.verdict == Unchanged ==>
          var seen := Replay(log[..answer.at]);
          seen.Some? && Perform(seen.value, answer.operation) == None)
  }

  ghost predicate Inv(w: World) {
    && Replay(w.log) == Some(w.disk)
    && MutualExclusion(w)
    && TicketsIncrease(w.log)
    && (forall i :: 0 <= i < |w.log| ==> w.log[i].ticket <= w.tickets)
    && (forall pid :: pid in w.processes && Critical(w.processes[pid].phase) ==> HolderOk(w, w.processes[pid]))
    && (forall i :: 0 <= i < |w.answers| ==> Justified(w.log, w.answers[i]))
  }

  lemma JustifiedStays(log: seq<Entry>, entry: Entry, answer: Answer)
    requires Justified(log, answer)
    ensures Justified(log + [entry], answer)
  {
    hide Replay, Perform;
    assert (log + [entry])[..answer.at] == log[..answer.at];
  }

  lemma ReplaySnoc(log: seq<Entry>, entry: Entry)
    ensures
      Replay(log + [entry]) == match Replay(log) case None => None case Some(document) => Perform(document, entry.operation)
  {
    hide Perform;
    assert (log + [entry])[..|log|] == log;
  }

  lemma RenameKeepsInv(w: World, pid: nat)
    requires Inv(w) && Enabled(w, Rename(pid))
    ensures Inv(Next(w, Rename(pid)))
  {
    hide Replay, Perform, Justified;
    var entry := Entry(w.tickets, w.processes[pid].phase.operation);
    ReplaySnoc(w.log, entry);
    forall i | 0 <= i < |w.answers| ensures Justified(w.log + [entry], w.answers[i]) {
      JustifiedStays(w.log, entry, w.answers[i]);
    }
    assert HolderOk(w, w.processes[pid]);
  }

  lemma ReleaseKeepsInv(w: World, pid: nat)
    requires Inv(w) && Enabled(w, Release(pid))
    ensures Inv(Next(w, Release(pid)))
  {
    hide Replay, Perform;
    assert w.log[..|w.log|] == w.log;
    assert HolderOk(w, w.processes[pid]);
  }

  lemma StepKeepsInv(w: World, step: Step)
    requires Inv(w) && Enabled(w, step)
    ensures Inv(Next(w, step))
  {
    hide Replay, Perform, Justified;
    match step {
      case Rename(pid) => RenameKeepsInv(w, pid);
      case Release(pid) => ReleaseKeepsInv(w, pid);
      case _ =>
    }
  }

  lemma {:induction false} EveryRun(steps: seq<Step>)
    requires Run(steps).1
    ensures Inv(Run(steps).0)
  {
    hide Enabled, Next, Inv;
    if steps != [] {
      EveryRun(steps[..|steps| - 1]);
      StepKeepsInv(Run(steps[..|steps| - 1]).0, steps[|steps| - 1]);
    } else {
      EmptyWorld();
    }
  }

  lemma EmptyWorld()
    ensures Inv(World([], None, 0, map[], [], []))
  {
  }

  // ---------------------------------------------------------------------------
  // What that means
  // ---------------------------------------------------------------------------

  // What the operations of a log do to a map from aliases.
  function ReplayMap(log: seq<Entry>): Option<map<string, RegisteredProfile>> {
    if log == [] then Some(map[])
    else
      match ReplayMap(log[..|log| - 1])
      case None => None
      case Some(m) => PerformMap(m, log[|log| - 1].operation)
  }

  lemma {:induction false} ReplayRefinesMap(log: seq<Entry>)
    requires Replay(log).Some?
    ensures WellFormed(Replay(log).value) && ReplayMap(log) == Some(AsMap(Replay(log).value))
  {
    hide Perform, PerformMap;
    if log != [] {
      ReplayRefinesMap(log[..|log| - 1]);
      PerformRefinesMap(Replay(log[..|log| - 1]).value, log[|log| - 1].operation);
    }
  }

  // At every moment of every run the file is the saved operations applied one by one,
  // in the order their processes got the lock, from the empty document: no update is
  // lost, aliases are unique and in order, and at most one process is inside the lock.
  lemma FileIsReplay(steps: seq<Step>)
    requires Run(steps).1
    ensures
      var w := Run(steps).0;
      && Replay(w.log) == Some(w.disk)
      && WellFormed(w.disk) && ReplayMap(w.log) == Some(AsMap(w.disk))
      && TicketsIncrease(w.log) && MutualExclusion(w)
  {
    hide Perform, Run;
    EveryRun(steps);
    ReplayRefinesMap(Run(steps).0.log);
  }

  // What callers were told is true of the file at the moment they were told.
  lemma {:induction false} AnswersAreTrue(steps: seq<Step>, i: nat)
    requires Run(steps).1 && i < |Run(steps).0.answers|
    ensures Justified(Run(steps).0.log, Run(steps).0.answers[i])
  {
    hide Run;
    EveryRun(steps);
  }

  // Only the process inside the lock changes the file, and only to what its operation
  // makes of the file as it stands, however stale its copy was when it began.
  lemma OnlySavesChangeTheFile(steps: seq<Step>, step: Step)
    requires Run(steps).1 && Enabled(Run(steps).0, step)
    requires Next(Run(steps).0, step).disk != Run(steps).0.disk
    ensures
      var w, after := Run(steps).0, Next(Run(steps).0, step);
      && step.Rename? && w.holder == Some(step.pid)
      && Perform(w.disk, w.processes[step.pid].phase.operation) == Some(after.disk)
  {
    hide Perform, Run;
    EveryRun(steps);
    assert HolderOk(Run(steps).0, Run(steps).0.processes[step.pid]);
  }

  // A process that dies inside the lock blocks all later changes; nothing breaks, and
  // nothing is ever saved again.
  lemma {:induction false} AbandonedLockBlocks(steps: seq<Step>, more: seq<Step>, pid: nat)
    requires Run(steps).1 && Run(steps + more).1
    requires
      var w := Run(steps).0;
      w.holder == Some(pid) && pid in w.processes && w.processes[pid].phase.Dead?
    ensures
      var w, later := Run(steps).0, Run(steps + more).0;
      && later.disk == w.disk && later.log == w.log && later.answers == w.answers && later.holder == Some(pid)
      && pid in later.processes && later.processes[pid].phase.Dead?
  {
    hide Perform, Replay;
    if more == [] {
      assert steps + more == steps;
    } else {
      var front := more[..|more| - 1];
      assert (steps + more)[..|steps + more| - 1] == steps + front;
      AbandonedLockBlocks(steps, front, pid);
      EveryRun(steps + front);
    }
  }

  // ---------------------------------------------------------------------------
  // A call with nobody in the way
  // ---------------------------------------------------------------------------

  lemma RunSnoc(steps: seq<Step>, step: Step)
    requires Run(steps).1 && Enabled(Run(steps).0, step)
    ensures Run(steps + [step]) == (Next(Run(steps).0, step), true)
  {
    hide Enabled, Next;
    assert (steps + [step])[..|steps|] == steps;
  }

  // From a free lock, a call that is neither stopped nor failed is a run, and leaves
  // the file, the caller's copy and the answer as the methods of `Registry` say.
  lemma UncontendedCall(steps: seq<Step>, pid: nat, operation: Operation) returns (after: seq<Step>)
    requires Run(steps).1 && Enabled(Run(steps).0, Acquire(pid, operation))
    ensures Run(after).1 && steps <= after
    ensures
      var w, w' := Run(steps).0, Run(after).0;
      var saved := Perform(w.disk, operation);
      && w'.disk == (if saved.Some? then saved.value else w.disk)
      && pid in w'.processes && w'.processes[pid].copy == w'.disk && w'.processes[pid].phase.Idle?
      && w'.holder.None?
      && w'.answers == w.answers
           + [Answer(w.tickets + 1, operation, if saved.Some? then Saved else Unchanged, |w'.log|)]
  {
    hide Perform, Run;
    var w := Run(steps).0;
    after := steps + [Acquire(pid, operation)];
    RunSnoc(steps, Acquire(pid, operation));
    RunSnoc(after, Load(pid));
    after := after + [Load(pid)];
    RunSnoc(after, Edit(pid));
    after := after + [Edit(pid)];
    if Perform(w.disk, operation).Some? {
      RunSnoc(after, WriteTemporary(pid));
      after := after + [WriteTemporary(pid)];
      RunSnoc(after, Rename(pid));
      after := after + [Rename(pid)];
    }
    RunSnoc(after, Release(pid));
    after := after + [Release(pid)];
  }

  // Such a call can come first: a process with any stale copy registers a profile, and
  // the file has exactly that.
  lemma FirstCall(pid: nat, copy: Document, entry: RegisteredProfile) returns (after: seq<Step>)
    ensures Run(after).1 && Run(after).0.disk == [entry]
    ensures Run(after).0.answers == [Answer(1, Register(entry, false), Saved, |Run(after).0.log|)]
  {
    var begun := [] + [Open(pid, copy)];
    assert Run([]) == (World([], None, 0, map[], [], []), true);
    RunSnoc([], Open(pid, copy));
    FirstEntry(entry);
    after := UncontendedCall(begun, pid, Register(entry, false));
  }

  lemma FirstEntry(entry: RegisteredProfile)
    ensures Perform([], Register(entry, false)) == Some([entry])
  {
    assert !Has([], entry.alias);
    assert Retain([], NotNamed(entry.alias)) + [entry] == [entry] && [entry][..0] == [];
    assert SortByAlias([]) == [] && InsertByAlias([], entry) == [] + [entry];
  }
}
