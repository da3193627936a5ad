/** The loop of one run (`src/application.rs`), as a sequence of steps of `Dispatch`. */
module RunLoop {
  import opened Text
  import opened ApplicationEvents
  import opened Dispatch

  // How the loop's attempt to deliver an event can end.
  datatype Delivery = Sent | ReceiverGone | Stopped

  // How many of the first `n` deliveries come before one that fails.
  function DeliveredCount(delivery: nat -> Delivery, n: nat): (count: nat)
    ensures count <= n
    ensures forall i :: 0 <= i < count ==> delivery(i).Sent?
    ensures count < n ==> !delivery(count).Sent?
  {
    if n == 0 then 0
    else
      var front := DeliveredCount(delivery, n - 1);
      if front == n - 1 && delivery(n - 1).Sent? then n else front
  }

  lemma EffectsGrow(stream: seq<ApplicationEvent>, i: nat)
    requires i < |stream|
    ensures
      Effects(stream[..i + 1])
      == if HasEffect(stream[i]) then Effects(stream[..i]) + [stream[i]] else Effects(stream[..i])
  {
    assert stream[..i + 1][..i] == stream[..i];
  }

  // A run just started, or on its way: `steps` have made its task `t` and changed
  // nothing else.
  ghost predicate OnItsWay(w: World, i: nat, steps: seq<Step>, t: Task) {
    && i < |w.tasks| && w.mode.Serving? && t.id in w.runs && w.runs[t.id] == i
    && After(w, steps) == Some(w.(tasks := w.tasks[i := t]))
  }

  lemma OwnStep(w: World, i: nat, steps: seq<Step>, t: Task, step: Step) returns (longer: seq<Step>)
    requires OnItsWay(w, i, steps, t) && IsTaskStep(step) && step.task == i && !step.End? && TaskCan(t, step)
    ensures OnItsWay(w, i, longer, TaskStep(t, step))
  {
    TaskStepFrame(t, step);
    hide After, TaskStep, TaskCan;
    assert w.tasks[i := t][i := TaskStep(t, step)] == w.tasks[i := TaskStep(t, step)];
    AfterSnoc(w, steps, step);
    longer := steps + [step];
  }

  lemma TokenStep(w: World, i: nat, steps: seq<Step>, t: Task) returns (longer: seq<Step>)
    requires OnItsWay(w, i, steps, t)
    ensures OnItsWay(w, i, longer, t.(cancelled := true))
  {
    hide After;
    assert w.tasks[i := t][i := t.(cancelled := true)] == w.tasks[i := t.(cancelled := true)];
    AfterSnoc(w, steps, Cancel(t.id));
    longer := steps + [Cancel(t.id)];
  }

  // What the caller must have read for the channel to take one more event.
  lemma MakeRoom(w: World, i: nat, steps: seq<Step>, t: Task) returns (longer: seq<Step>, t': Task)
    requires OnItsWay(w, i, steps, t) && t.phase.Delivering? && t.connected
    requires t.received <= |t.sent| <= t.received + EVENT_CAPACITY
    ensures OnItsWay(w, i, longer, t') && |t'.sent| < t'.received + EVENT_CAPACITY
    ensures t' == t.(received := t'.received) && t.received <= t'.received <= |t.sent|
  {
    longer, t' := steps, t;
    if |t.sent| == t.received + EVENT_CAPACITY {
      longer := OwnStep(w, i, steps, t, Receive(i));
      t' := TaskStep(t, Receive(i));
    }
  }

  ghost predicate Ready(t: Task) {
    && t.phase.Polling? && t.received <= |t.sent| <= t.received + EVENT_CAPACITY
    && (t.deliver ==> t.connected)
  }

  // One round of the loop.
  lemma OneEvent(w: World, i: nat, steps: seq<Step>, t: Task, event: ApplicationEvent, outcome: Delivery)
    returns (longer: seq<Step>, t': Task)
    requires OnItsWay(w, i, steps, t) && Ready(t)
    ensures OnItsWay(w, i, longer, t') && Ready(t') && t'.id == t.id
    ensures t'.yielded == t.yielded + [event]
    ensures t'.effects == if HasEffect(event) then t.effects + [event] else t.effects
    ensures t'.deliver == (t.deliver && outcome.Sent?)
    ensures t'.sent == if t'.deliver then t.sent + [event] else t.sent
  {
    hide OnItsWay;
    longer := OwnStep(w, i, steps, t, Yield(i, event));
    t' := TaskStep(t, Yield(i, event));
    longer := OwnStep(w, i, longer, t', Record(i));
    t' := TaskStep(t', Record(i));
    if t.deliver {
      match outcome {
        case Sent =>
          longer, t' := MakeRoom(w, i, longer, t');
          longer := OwnStep(w, i, longer, t', Send(i));
          t' := TaskStep(t', Send(i));
        case ReceiverGone =>
          longer := OwnStep(w, i, longer, t', Disconnect(i));
          t' := TaskStep(t', Disconnect(i));
          longer := OwnStep(w, i, longer, t', SendFails(i));
          t' := TaskStep(t', SendFails(i));
        case Stopped =>
          longer := TokenStep(w, i, longer, t');
          t' := t'.(cancelled := true);
          longer := OwnStep(w, i, longer, t', StopDelivering(i));
          t' := TaskStep(t', StopDelivering(i));
      }
    }
  }

  lemma LastStep(w: World, i: nat, steps: seq<Step>, t: Task) returns (longer: seq<Step>)
    requires OnItsWay(w, i, steps, t) && t.phase.Polling?
    ensures After(w, longer) == Some(w.(tasks := w.tasks[i := t.(phase := Ended)], finished := w.finished + [t.id]))
  {
    hide After;
    assert w.tasks[i := t][i := t.(phase := Ended)] == w.tasks[i := t.(phase := Ended)];
    AfterSnoc(w, steps, End(i));
    longer := steps + [End(i)];
  }

  // The loop's variables after `k` events.
  ghost predicate Mirrors(stream: seq<ApplicationEvent>, delivery: nat -> Delivery, k: nat, t: Task, id: nat,
                          sent: seq<ApplicationEvent>, effects: seq<ApplicationEvent>, deliver: bool)
  {
    && k <= |stream| && effects == Effects(stream[..k]) && sent == stream[..DeliveredCount(delivery, k)]
    && (deliver <==> DeliveredCount(delivery, k) == k)
    && Ready(t) && t.id == id
    && t.yielded == stream[..k] && t.effects == effects && t.sent == sent && t.deliver == deliver
  }

  lemma Round(w: World, i: nat, steps: seq<Step>, stream: seq<ApplicationEvent>, delivery: nat -> Delivery, k: nat,
              t: Task, id: nat, sent: seq<ApplicationEvent>, effects: seq<ApplicationEvent>, deliver: bool)
    returns (longer: seq<Step>, t': Task)
    requires k < |stream| && OnItsWay(w, i, steps, t) && Mirrors(stream, delivery, k, t, id, sent, effects, deliver)
    ensures OnItsWay(w, i, longer, t')
    ensures
      var goesOn := deliver && delivery(k).Sent?;
      Mirrors(stream, delivery, k + 1, t', id, if goesOn then sent + [stream[k]] else sent,
              if HasEffect(stream[k]) then effects + [stream[k]] else effects, goesOn)
  {
    hide OnItsWay, Effects, HasEffect, Ready;
    EffectsGrow(stream, k);
    assert stream[..k] + [stream[k]] == stream[..k + 1];
    longer, t' := OneEvent(w, i, steps, t, stream[k], delivery(k));
  }

  lemma Begins(w: World, i: nat, stream: seq<ApplicationEvent>, delivery: nat -> Delivery)
    requires i < |w.tasks| && w.tasks[i] == NewTask(w.tasks[i].id)
    requires w.mode.Serving? && w.tasks[i].id in w.runs && w.runs[w.tasks[i].id] == i
    ensures OnItsWay(w, i, [], w.tasks[i])
    ensures Mirrors(stream, delivery, 0, w.tasks[i], w.tasks[i].id, [], [], true)
  {
    assert w.tasks[i := w.tasks[i]] == w.tasks;
    assert stream[..0] == [];
  }

  // What the loop's run of steps leaves behind.
  ghost predicate Ran(w: World, i: nat, steps: seq<Step>, stream: seq<ApplicationEvent>,
                      sent: seq<ApplicationEvent>, effects: seq<ApplicationEvent>)
  {
    && i < |w.tasks| && After(w, steps).Some?
    && var w' := After(w, steps).value;
       && w' == w.(tasks := w'.tasks, finished := w.finished + [w.tasks[i].id])
       && |w'.tasks| == |w.tasks| && (forall j :: 0 <= j < |w.tasks| && j != i ==> w'.tasks[j] == w.tasks[j])
       && w'.tasks[i].phase.Ended? && w'.tasks[i].yielded == stream
       && w'.tasks[i].sent == sent && w'.tasks[i].effects == effects
  }

  lemma Ends(w: World, i: nat, steps: seq<Step>, stream: seq<ApplicationEvent>, delivery: nat -> Delivery,
             t: Task, sent: seq<ApplicationEvent>, effects: seq<ApplicationEvent>, deliver: bool)
    returns (longer: seq<Step>)
    requires i < |w.tasks| && OnItsWay(w, i, steps, t)
    requires Mirrors(stream, delivery, |stream|, t, w.tasks[i].id, sent, effects, deliver)
    ensures Ran(w, i, longer, stream, sent, effects)
    ensures effects == Effects(stream) && sent == stream[..DeliveredCount(delivery, |stream|)]
  {
    hide Effects;
    assert stream[..|stream|] == stream;
    longer := LastStep(w, i, steps, t);
  }

  // Whoever stops listening, the whole stream is read and leaves its side effects;
  // what is delivered is everything before the first delivery that failed. And in any
  // world where the run has just started, the loop is a sequence of steps of `Dispatch`.
  method Execute(stream: seq<ApplicationEvent>, delivery: nat -> Delivery, ghost w: World, ghost i: nat)
    returns (sent: seq<ApplicationEvent>, effects: seq<ApplicationEvent>, ghost steps: seq<Step>)
    requires i < |w.tasks| && w.tasks[i] == NewTask(w.tasks[i].id)
    requires w.mode.Serving? && w.tasks[i].id in w.runs && w.runs[w.tasks[i].id] == i
    ensures effects == Effects(stream) && Recorded(stream, effects)
    ensures sent == stream[..DeliveredCount(delivery, |stream|)]
    ensures Ran(w, i, steps, stream, sent, effects)
  {
    hide *;
    sent, effects, steps := [], [], [];
    ghost var t := w.tasks[i];
    Begins(w, i, stream, delivery);
    var deliver := true;
    for k := 0 to |stream|
      invariant OnItsWay(w, i, steps, t)
      invariant Mirrors(stream, delivery, k, t, w.tasks[i].id, sent, effects, deliver)
    {
      var event := stream[k];
      steps, t := Round(w, i, steps, stream, delivery, k, t, w.tasks[i].id, sent, effects, deliver);
      if HasEffect(event) {
        effects := effects + [event];
      }
      if !deliver {
        continue;
      }
      match delivery(k)
      case Sent => sent := sent + [event];
      case ReceiverGone => deliver := false;
      case Stopped => deliver := false;
    }
    steps := Ends(w, i, steps, stream, delivery, t, sent, effects, deliver);
    EffectsAreRecorded(stream);
  }
}
