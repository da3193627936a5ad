/** Safety of proactive delivery over all runs (`src/proactive.rs`).

One (session, idempotency key) is followed through any number of calls. Between any
two steps of the client the process may stop and be restarted, the clock may run,
and requests already sent may reach the provider or be lost. The provider creates a
message for a UUID it has not seen within its de-duplication window.

`slack` bounds the delay between a client's window check and the provider receiving
the request; the provider remembers a UUID for one hour plus that slack. With
`slack == 0` the check and the receipt are one instant and the window is one hour.
*/
module OutboxLaws {
  import opened Text
  import opened Outbox

  // A request on its way, stamped with the time of the client's window check.
  datatype Attempt = Attempt(providerUuid: string, text: string, channelId: string, checkedAt: nat)

  datatype Posted = Posted(providerUuid: string, text: string, channelId: string, id: string)

  // When the provider created the message it remembers for a UUID, and its id.
  datatype Seen = Seen(at: nat, id: string)

  // A request that reached the provider, whatever became of it.
  datatype Receipt = Receipt(providerUuid: string, at: nat)

  datatype World = World(
    client: Client, now: nat, slack: nat,
    inFlight: seq<Attempt>, heard: seq<Receipt>, seen: map<string, Seen>, created: seq<Posted>)

  function Init(slack: nat, history: seq<string>): World {
    World(Client(None, Idle, history), 0, slack, [], [], map[], [])
  }

  // How long the provider remembers a UUID, apart from the slack.
  const UUID_WINDOW: nat := 3600

  predicate Remembered(w: World, uuid: string) {
    uuid in w.seen && w.now < w.seen[uuid].at + UUID_WINDOW + w.slack
  }

  // Ids are never empty, and the provider never gives two messages one id.
  predicate NewId(w: World, id: string) {
    id != "" && forall i :: 0 <= i < |w.created| ==> w.created[i].id != id
  }

  predicate Enabled(w: World, step: Step) {
    match step
    case Receive(index, verdict) =>
      && index < |w.inFlight| && w.now <= w.inFlight[index].checkedAt + w.slack
      && (verdict.Accept? && !Remembered(w, w.inFlight[index].providerUuid) ==> NewId(w, verdict.id))
    case Lose(index) => index < |w.inFlight|
    case Tick(_) => true
    case Chat(id) => w.client.disk.Some? ==> id != w.client.disk.value.receipt.deliveryId
    case Confirm(id) => ClientEnabled(w.client, step, w.now) && exists i :: 0 <= i < |w.created| && w.created[i].id == id
    case _ => ClientEnabled(w.client, step, w.now)
  }

  function Without<T>(s: seq<T>, index: nat): seq<T>
    requires index < |s|
  {
    s[..index] + s[index + 1..]
  }

  function Received(w: World, index: nat, verdict: Verdict): (w': World)
    requires index < |w.inFlight|
    ensures w'.client == w.client && w'.now == w.now
  {
    var attempt := w.inFlight[index];
    var w' := w.(inFlight := Without(w.inFlight, index), heard := w.heard + [Receipt(attempt.providerUuid, w.now)]);
    if verdict.Reject? || Remembered(w, attempt.providerUuid) then w'
    else w'.(seen := w.seen[attempt.providerUuid := Seen(w.now, verdict.id)],
             created := w.created + [Posted(attempt.providerUuid, attempt.text, attempt.channelId, verdict.id)])
  }

  function Launched(client: Client): seq<Attempt> {
    if client.disk.Some? && client.progress.Ready? then
      var record := client.disk.value;
      [Attempt(record.providerUuid, record.text, record.channelId, client.progress.checkedAt)]
    else []
  }

  function Next(w: World, step: Step): World
    requires Enabled(w, step)
  {
    match step
    case Receive(index, verdict) => Received(w, index, verdict)
    case Lose(index) => w.(inFlight := Without(w.inFlight, index))
    case Tick(seconds) => w.(now := w.now + seconds)
    case Chat(id) => w.(client := w.client.(history := w.client.history + [id]))
    case Transmit => w.(client := ClientNext(w.client, step, w.now), inFlight := w.inFlight + Launched(w.client))
    case _ => w.(client := ClientNext(w.client, step, w.now))
  }

  function Run(w: World, steps: seq<Step>): Option<World> {
    if steps == [] then Some(w)
    else
      var before := Run(w, steps[..|steps| - 1]);
      var step := steps[|steps| - 1];
      if before.Some? && Enabled(before.value, step) then Some(Next(before.value, step)) else None
  }

  // ---------------------------------------------------------------------------
  // A call of the service is a run
  // ---------------------------------------------------------------------------

  ghost predicate Known(w: World, id: string) {
    exists i :: 0 <= i < |w.created| && w.created[i].id == id
  }

  lemma {:induction false} ClientStepsRun(w: World, steps: seq<Step>)
    requires ClientRun(w.client, steps, w.now).Some?
    requires forall id :: Confirm(id) in steps ==> Known(w, id)
    ensures Run(w, steps).Some?
    ensures
      var w' := Run(w, steps).value;
      && w'.client == ClientRun(w.client, steps, w.now).value.0
      && w'.now == w.now && w'.created == w.created
  {
    hide ClientNext, EffectOf;
    if steps != [] {
      var front, last := steps[..|steps| - 1], steps[|steps| - 1];
      assert forall s :: s in front ==> s in steps;
      ClientStepsRun(w, front);
      var before := Run(w, front).value;
      assert last.Confirm? ==> Confirm(last.id) in steps && Known(before, last.id);
      assert Enabled(before, last);
    }
  }

  lemma {:induction false} ClientRunSplit(client: Client, a: seq<Step>, b: seq<Step>, now: nat)
    requires ClientRun(client, a + b, now).Some?
    ensures ClientRun(client, a, now).Some?
    ensures
      var mid := ClientRun(client, a, now).value.0;
      ClientRun(mid, b, now).Some? && ClientRun(mid, b, now).value.0 == ClientRun(client, a + b, now).value.0
  {
    hide ClientEnabled, ClientNext, EffectOf;
    if b == [] {
      assert a + b == a;
    } else {
      assert (a + b)[..|a + b| - 1] == a + b[..|b| - 1];
      ClientRunSplit(client, a, b[..|b| - 1], now);
    }
  }

  predicate IsNetworkStep(step: Step) {
    step.Receive? || step.Lose?
  }

  lemma {:induction false} NetworkStepsKeepClient(w: World, steps: seq<Step>)
    requires Run(w, steps).Some? && forall s :: s in steps ==> IsNetworkStep(s)
    ensures Run(w, steps).value.client == w.client && Run(w, steps).value.now == w.now
  {
    if steps != [] {
      var front, last := steps[..|steps| - 1], steps[|steps| - 1];
      assert last in steps && forall s :: s in front ==> s in steps;
      NetworkStepsKeepClient(w, front);
    }
  }

  lemma {:induction false} RunConcat(w: World, a: seq<Step>, b: seq<Step>)
    requires Run(w, a).Some?
    ensures Run(w, a + b) == Run(Run(w, a).value, b)
  {
    hide Enabled, Next;
    if b == [] {
      assert a + b == a;
    } else {
      assert (a + b)[..|a + b| - 1] == a + b[..|b| - 1];
      RunConcat(w, a, b[..|b| - 1]);
    }
  }

  // The steps that `DeliveryService.Send` takes, with the network acting while the
  // call waits, are a run of the world that ends in the client state the call left.
  lemma CallIsARun(w: World, before: seq<Step>, network: seq<Step>, after: seq<Step>, end: Client, effects: seq<Effect>)
    requires Did(w.client, before + after, w.now, end, effects)
    requires forall s :: s in before ==> !s.Confirm?
    requires forall s :: s in network ==> IsNetworkStep(s)
    requires Run(w, before + network).Some?
    requires forall id :: Confirm(id) in after ==> Known(Run(w, before + network).value, id)
    ensures Run(w, before + network + after).Some?
    ensures Run(w, before + network + after).value.client == end
  {
    hide Enabled, Next, ClientEnabled, ClientNext, EffectOf, Run, ClientRun;
    assert ClientRun(w.client, before + after, w.now) == Some((end, effects));
    ClientRunSplit(w.client, before, after, w.now);
    ClientStepsRun(w, before);
    RunConcat(w, before, network);
    NetworkStepsKeepClient(Run(w, before).value, network);
    ClientStepsRun(Run(w, before + network).value, after);
    RunConcat(w, before + network, after);
  }

  // ---------------------------------------------------------------------------
  // What every step keeps
  // ---------------------------------------------------------------------------

  function Count(history: seq<string>, id: string): nat {
    if history == [] then 0
    else Count(history[..|history| - 1], id) + if history[|history| - 1] == id then 1 else 0
  }

  ghost predicate RecordInv(record: OutboxRecord) {
    && (record.receipt.platformMessageId.Some? <==> record.receipt.state in {Sent, Complete})
    && (record.receipt.state == Pending ==> record.firstAttempt.None?)
    && (record.receipt.state in {Sending, Uncertain, Sent, Complete} ==> record.firstAttempt.Some?)
    && (record.receipt.state == Failed ==> record.receipt.error.Some? && IsFailure(record.receipt.error.value))
  }

  // The errors that a failed record can carry.
  predicate IsFailure(error: DeliveryError) {
    IsRefusal(error) || error.SendFailed?
  }

  ghost predicate ProgressInv(client: Client) {
    client.progress != Idle ==>
      && client.disk.Some?
      && var record := client.disk.value;
         match client.progress
         case Ready(checkedAt) =>
           record.receipt.state == Sending && record.firstAttempt.Some? && record.firstAttempt.value <= checkedAt
         case Waiting => record.receipt.state == Sending
         case Confirmed => record.receipt.state == Sent
         case Appended => record.receipt.state == Sent && record.receipt.deliveryId in client.history
         case _ => true
  }

  // Whatever reached the provider, accepted or not, was this record's, and came after
  // its durable first attempt.
  ghost predicate Preceded(w: World, record: OutboxRecord) {
    && (forall i :: 0 <= i < |w.heard| ==>
          && w.heard[i].providerUuid == record.providerUuid
          && record.firstAttempt.Some? && record.firstAttempt.value <= w.heard[i].at <= w.now)
    && (forall uuid :: uuid in w.seen ==>
          && uuid == record.providerUuid
          && record.firstAttempt.Some? && record.firstAttempt.value <= w.seen[uuid].at <= w.now)
  }

  // The provider only ever sees this record's request, not before the durable
  // first attempt.
  ghost predicate NetInv(w: World, record: OutboxRecord) {
    && (forall i :: 0 <= i < |w.inFlight| ==>
          var a := w.inFlight[i];
          && a.providerUuid == record.providerUuid && a.text == record.text && a.channelId == record.channelId
          && record.firstAttempt.Some? && record.firstAttempt.value <= a.checkedAt <= w.now)
    && Preceded(w, record)
    && (forall i :: 0 <= i < |w.created| ==>
          var m := w.created[i];
          && m.providerUuid == record.providerUuid && m.text == record.text && m.channelId == record.channelId
          && m.id != "")
    && (w.created == [] <==> record.providerUuid !in w.seen)
  }

  ghost predicate LedgerInv(client: Client, record: OutboxRecord) {
    && Count(client.history, record.receipt.deliveryId) <= 1
    && (record.receipt.deliveryId in client.history ==> record.receipt.platformMessageId.Some?)
    && (record.receipt.state == Complete ==> record.receipt.deliveryId in client.history)
  }

  ghost predicate Inv(w: World) {
    && ProgressInv(w.client)
    && (w.client.progress.Ready? ==> w.client.progress.checkedAt <= w.now)
    && match w.client.disk
       case None => w.inFlight == [] && w.heard == [] && w.seen == map[] && w.created == []
       case Some(record) =>
         && RecordInv(record) && NetInv(w, record) && LedgerInv(w.client, record)
         && (record.firstAttempt.Some? ==> record.firstAttempt.value <= w.now)
         && (record.receipt.platformMessageId.Some? ==> Known(w, record.receipt.platformMessageId.value))
  }

  lemma {:induction false} CountZero(history: seq<string>, id: string)
    ensures Count(history, id) == 0 <==> id !in history
  {
    if history != [] {
      var front := history[..|history| - 1];
      CountZero(front, id);
      assert history == front + [history[|history| - 1]];
    }
  }

  lemma ClientStepKeepsInv(w: World, step: Step)
    requires Inv(w) && Enabled(w, step) && IsClientStep(step) && step != Transmit && step != Append && !step.Create?
    ensures Inv(Next(w, step))
  {
    hide NetInv, LedgerInv;
    if w.client.disk.Some? {
      ClientStepKeepsNet(w, step);
      ClientStepKeepsLedger(w, step);
    }
  }

  // What the network knows of a record does not depend on the rest of it.
  lemma NetStays(w: World, record: OutboxRecord, w': World, record': OutboxRecord)
    requires NetInv(w, record)
    requires record'.providerUuid == record.providerUuid && record'.text == record.text
    requires record'.channelId == record.channelId
    requires record.firstAttempt.Some? ==> record'.firstAttempt == record.firstAttempt
    requires w.now <= w'.now && w'.inFlight == w.inFlight && w'.heard == w.heard && w'.seen == w.seen
    requires w'.created == w.created
    ensures NetInv(w', record')
  {
    assert Preceded(w, record);
    forall i | 0 <= i < |w'.heard| ensures w'.heard[i] == w.heard[i] {
    }
    if w.heard != [] {
      assert w.heard[0].providerUuid == record.providerUuid;
    }
  }

  lemma ClientStepKeepsNet(w: World, step: Step)
    requires Inv(w) && Enabled(w, step) && IsClientStep(step) && step != Transmit && !step.Create? && w.client.disk.Some?
    ensures Next(w, step).client.disk.Some? && NetInv(Next(w, step), Next(w, step).client.disk.value)
  {
    hide LedgerInv, RecordInv, Known, NetInv;
    NetStays(w, w.client.disk.value, Next(w, step), Next(w, step).client.disk.value);
  }

  lemma ClientStepKeepsLedger(w: World, step: Step)
    requires Inv(w) && Enabled(w, step) && IsClientStep(step) && step != Append && !step.Create? && w.client.disk.Some?
    ensures Next(w, step).client.disk.Some?
    ensures LedgerInv(Next(w, step).client, Next(w, step).client.disk.value)
  {
    hide NetInv, Count;
  }

  lemma CreateKeepsInv(w: World, record: OutboxRecord)
    requires Inv(w) && Enabled(w, Create(record))
    ensures Inv(Next(w, Create(record)))
  {
    CountZero(w.client.history, record.receipt.deliveryId);
  }

  lemma TransmitKeepsInv(w: World)
    requires Inv(w) && Enabled(w, Transmit)
    ensures Inv(Next(w, Transmit))
  {
  }

  lemma AppendKeepsInv(w: World)
    requires Inv(w) && Enabled(w, Append)
    ensures Inv(Next(w, Append))
  {
    var history, id := w.client.history, w.client.disk.value.receipt.deliveryId;
    CountZero(history, id);
    assert (history + [id])[..|history|] == history;
  }

  lemma ChatKeepsInv(w: World, id: string)
    requires Inv(w) && Enabled(w, Chat(id))
    ensures Inv(Next(w, Chat(id)))
  {
    var history := w.client.history;
    assert (history + [id])[..|history|] == history;
    if w.client.disk.Some? {
      NetStays(w, w.client.disk.value, Next(w, Chat(id)), w.client.disk.value);
    }
  }

  lemma ReceiveKeepsInv(w: World, index: nat, verdict: Verdict)
    requires Inv(w) && Enabled(w, Receive(index, verdict))
    ensures Inv(Next(w, Receive(index, verdict)))
  {
    var w' := Received(w, index, verdict);
    assert forall id :: Known(w, id) ==> Known(w', id) by {
      forall id | Known(w, id) ensures Known(w', id) {
        var i :| 0 <= i < |w.created| && w.created[i].id == id;
        assert w'.created[i] == w.created[i];
      }
    }
  }

  lemma LoseKeepsInv(w: World, index: nat)
    requires Inv(w) && Enabled(w, Lose(index))
    ensures Inv(Next(w, Lose(index)))
  {
    KnownStays(w, Next(w, Lose(index)));
  }

  lemma TickKeepsInv(w: World, seconds: nat)
    requires Inv(w) && Enabled(w, Tick(seconds))
    ensures Inv(Next(w, Tick(seconds)))
  {
    KnownStays(w, Next(w, Tick(seconds)));
    if w.client.disk.Some? {
      NetStays(w, w.client.disk.value, Next(w, Tick(seconds)), w.client.disk.value);
    }
  }

  lemma KnownStays(w: World, later: World)
    requires w.created <= later.created
    ensures forall id :: Known(w, id) ==> Known(later, id)
  {
    forall id | Known(w, id) ensures Known(later, id) {
      var i :| 0 <= i < |w.created| && w.created[i].id == id;
      assert later.created[i].id == id;
    }
  }

  lemma StepKeepsInv(w: World, step: Step)
    requires Inv(w) && Enabled(w, step)
    ensures Inv(Next(w, step))
  {
    hide Inv, Enabled, Next;
    match step
    case Receive(index, verdict) => ReceiveKeepsInv(w, index, verdict);
    case Lose(index) => LoseKeepsInv(w, index);
    case Tick(seconds) => TickKeepsInv(w, seconds);
    case Chat(id) => ChatKeepsInv(w, id);
    case Transmit => TransmitKeepsInv(w);
    case Append => AppendKeepsInv(w);
    case Create(record) => CreateKeepsInv(w, record);
    case _ => ClientStepKeepsInv(w, step);
  }

  lemma {:induction false} ReachableInv(w: World, steps: seq<Step>)
    requires Inv(w) && Run(w, steps).Some?
    ensures Inv(Run(w, steps).value)
  {
    hide Inv, Enabled, Next;
    if steps != [] {
      ReachableInv(w, steps[..|steps| - 1]);
      StepKeepsInv(Run(w, steps[..|steps| - 1]).value, steps[|steps| - 1]);
    }
  }

  ghost predicate Reachable(w: World) {
    exists slack, history, steps :: Run(Init(slack, history), steps) == Some(w)
  }

  lemma ReachableWorlds(w: World)
    requires Reachable(w)
    ensures Inv(w)
  {
    hide Inv;
    var slack, history, steps :| Run(Init(slack, history), steps) == Some(w);
    assert Inv(Init(slack, history)) by {
      InitInv(slack, history);
    }
    ReachableInv(Init(slack, history), steps);
  }

  lemma InitInv(slack: nat, history: seq<string>)
    ensures Inv(Init(slack, history))
  {
  }

  // ---------------------------------------------------------------------------
  // Lifecycle of a record
  // ---------------------------------------------------------------------------

  // How a saved record may look at any later time.
  ghost predicate Later(before: OutboxRecord, after: OutboxRecord) {
    && after.text == before.text && after.platform == before.platform && after.channelId == before.channelId
    && after.providerUuid == before.providerUuid && after.receipt.deliveryId == before.receipt.deliveryId
    && SlotOf(after) == SlotOf(before)
    && (before.firstAttempt.Some? ==> after.firstAttempt == before.firstAttempt)
    && (before.receipt.platformMessageId.Some? ==> after.receipt.platformMessageId == before.receipt.platformMessageId)
    && (before.receipt.state == Complete ==> after == before)
    && (before.receipt.state == Sent ==> after.receipt.state in {Sent, Complete})
  }

  lemma StepIsLater(w: World, step: Step)
    requires Inv(w) && Enabled(w, step) && w.client.disk.Some?
    ensures Next(w, step).client.disk.Some?
    ensures Later(w.client.disk.value, Next(w, step).client.disk.value)
  {
    hide NetInv, LedgerInv, Received;
  }

  // In any later world, through any crashes: identity never changes, the first
  // attempt and the message id are written once, and a complete record is final.
  lemma {:induction false} RecordLifecycle(w: World, steps: seq<Step>)
    requires Reachable(w) && w.client.disk.Some? && Run(w, steps).Some?
    ensures Run(w, steps).value.client.disk.Some?
    ensures Later(w.client.disk.value, Run(w, steps).value.client.disk.value)
  {
    hide Inv, Enabled, Next, Reachable;
    if steps != [] {
      RecordLifecycle(w, steps[..|steps| - 1]);
      ReachableWorlds(w);
      ReachableInv(w, steps[..|steps| - 1]);
      StepIsLater(Run(w, steps[..|steps| - 1]).value, steps[|steps| - 1]);
    }
  }

  // In every reachable world: an id exactly when sent or complete, and then of a
  // message the provider really created from this record; complete only once the
  // chat history has the message, which it never has twice; whatever reached the
  // provider, accepted or not, was preceded by a durable first attempt; and a failed
  // record carries the error of a refusal or of a failed send.
  lemma ReachableRecords(w: World)
    requires Reachable(w) && w.client.disk.Some?
    ensures
      var record := w.client.disk.value;
      && (record.receipt.platformMessageId.Some? <==> record.receipt.state in {Sent, Complete})
      && (record.receipt.platformMessageId.Some? ==>
            Posted(record.providerUuid, record.text, record.channelId, record.receipt.platformMessageId.value) in w.created)
      && (record.receipt.state == Complete ==> Count(w.client.history, record.receipt.deliveryId) == 1)
      && Count(w.client.history, record.receipt.deliveryId) <= 1
      && (record.receipt.deliveryId in w.client.history ==> record.receipt.platformMessageId.Some?)
      && Preceded(w, record)
      && (record.receipt.state == Failed ==> record.receipt.error.Some? && IsFailure(record.receipt.error.value))
      && (ReadStatus(record).state == Complete <==> record.receipt.state == Complete)
      && ReadStatus(record).state != Sending
  {
    ReachableWorlds(w);
    hide Preceded;
    var record := w.client.disk.value;
    CountZero(w.client.history, record.receipt.deliveryId);
    if record.receipt.platformMessageId.Some? {
      var i :| 0 <= i < |w.created| && w.created[i].id == record.receipt.platformMessageId.value;
      assert w.created[i]
          == Posted(record.providerUuid, record.text, record.channelId, record.receipt.platformMessageId.value);
    }
  }

  // ---------------------------------------------------------------------------
  // At most one message
  // ---------------------------------------------------------------------------

  // The state in which the code no longer knows that a message may be out: "failed"
  // was stored after an attempt, and the window of that attempt is over.
  predicate StaleFailed(record: OutboxRecord, now: nat) {
    record.receipt.state == Failed && record.firstAttempt.Some? && record.firstAttempt.value + 3600 <= now
  }

  predicate CarefulStep(w: World, step: Step) {
    step == Begin && w.client.disk.Some? ==> !StaleFailed(w.client.disk.value, w.now)
  }

  // No attempt of the run starts from a stale failure.
  predicate Careful(w: World, steps: seq<Step>) {
    steps == [] ||
    var front := steps[..|steps| - 1];
    Careful(w, front) && (Run(w, front).Some? ==> CarefulStep(Run(w, front).value, steps[|steps| - 1]))
  }

  ghost predicate OnceInv(w: World) {
    && |w.created| <= 1
    && (w.client.disk.Some? && w.client.disk.value.firstAttempt.Some? ==>
          var deadline := w.client.disk.value.firstAttempt.value + DEDUPE_WINDOW;
          && (forall i :: 0 <= i < |w.inFlight| ==> w.inFlight[i].checkedAt < deadline)
          && (w.client.progress.Ready? ==> w.client.progress.checkedAt < deadline))
  }

  lemma ReceiveKeepsOnce(w: World, index: nat, verdict: Verdict)
    requires Inv(w) && OnceInv(w) && Enabled(w, Receive(index, verdict))
    ensures OnceInv(Next(w, Receive(index, verdict)))
  {
    var attempt := w.inFlight[index];
    assert w.client.disk.Some?;
    if w.created != [] {
      assert Remembered(w, attempt.providerUuid);
    }
  }

  lemma ClientStepKeepsOnce(w: World, step: Step)
    requires Inv(w) && OnceInv(w) && Enabled(w, step) && CarefulStep(w, step) && IsClientStep(step)
    ensures OnceInv(Next(w, step))
  {
    hide LedgerInv, Known;
  }

  lemma StepKeepsOnce(w: World, step: Step)
    requires Inv(w) && OnceInv(w) && Enabled(w, step) && CarefulStep(w, step)
    ensures OnceInv(Next(w, step))
  {
    hide Inv, CarefulStep, Received, ClientEnabled, ClientNext;
    if step.Receive? {
      ReceiveKeepsOnce(w, step.index, step.verdict);
    } else if IsClientStep(step) {
      ClientStepKeepsOnce(w, step);
    }
  }

  lemma {:induction false} CarefulRunsPostOnce(w: World, steps: seq<Step>)
    requires Inv(w) && OnceInv(w) && Run(w, steps).Some? && Careful(w, steps)
    ensures OnceInv(Run(w, steps).value)
  {
    hide Inv, OnceInv, Enabled, Next, CarefulStep;
    if steps != [] {
      var front := steps[..|steps| - 1];
      CarefulRunsPostOnce(w, front);
      ReachableInv(w, front);
      StepKeepsOnce(Run(w, front).value, steps[|steps| - 1]);
    }
  }

  lemma InitOnce(slack: nat, history: seq<string>)
    ensures Inv(Init(slack, history)) && OnceInv(Init(slack, history))
  {
  }

  // Over every run of calls, retries, lost replies, crashes and restarts in which no
  // attempt starts from a stale failure, the provider creates at most one message;
  // and once the record is complete it has created exactly the recorded one, from
  // exactly the recorded content, mirrored exactly once in the chat history.
  lemma AtMostOnce(slack: nat, history: seq<string>, steps: seq<Step>)
    requires Run(Init(slack, history), steps).Some? && Careful(Init(slack, history), steps)
    ensures
      var w := Run(Init(slack, history), steps).value;
      && |w.created| <= 1
      && (w.client.disk.Some? && w.client.disk.value.receipt.state == Complete ==>
            var record := w.client.disk.value;
            && record.receipt.platformMessageId.Some?
            && w.created
               == [Posted(record.providerUuid, record.text, record.channelId, record.receipt.platformMessageId.value)]
            && Count(w.client.history, record.receipt.deliveryId) == 1)
  {
    hide Inv, Enabled, Next;
    var w := Run(Init(slack, history), steps).value;
    InitOnce(slack, history);
    CarefulRunsPostOnce(Init(slack, history), steps);
    assert Reachable(w);
    if w.client.disk.Some? {
      ReachableRecords(w);
    }
  }

  // --- The condition is exact ---

  predicate NoAttempt(steps: seq<Step>) {
    forall i :: 0 <= i < |steps| ==> steps[i] != Begin
  }

  // A retry made now on this record creates no second message, whatever happened
  // before (without a stale retry) and whatever happens until the next attempt.
  ghost predicate RetryIsSafe(record: OutboxRecord, now: nat, slack: nat) {
    forall history, steps, more ::
      RetryFrom(record, now, Init(slack, history), steps, more)
      ==> |Run(Init(slack, history), steps + [Load, Begin] + more).value.created| <= 1
  }

  ghost predicate RetryFrom(record: OutboxRecord, now: nat, w: World, steps: seq<Step>, more: seq<Step>) {
    && Run(w, steps).Some? && Careful(w, steps)
    && Run(w, steps).value.client.disk == Some(record) && Run(w, steps).value.client.progress == Idle
    && Run(w, steps).value.now == now
    && NoAttempt(more)
    && Run(w, steps + [Load, Begin] + more).Some?
  }

  lemma RunSnoc(w: World, steps: seq<Step>, step: Step)
    ensures Run(w, steps + [step])
         == if Run(w, steps).Some? && Enabled(Run(w, steps).value, step)
            then Some(Next(Run(w, steps).value, step)) else None
    ensures Careful(w, steps + [step])
        <==> Careful(w, steps) && (Run(w, steps).Some? ==> CarefulStep(Run(w, steps).value, step))
  {
    hide Enabled, Next, CarefulStep;
    assert (steps + [step])[..|steps|] == steps;
  }

  lemma {:induction false} RunPrefix(w: World, a: seq<Step>, b: seq<Step>)
    requires Run(w, a + b).Some?
    ensures Run(w, a).Some?
  {
    hide Enabled, Next;
    if b == [] {
      assert a + b == a;
    } else {
      assert (a + b)[..|a + b| - 1] == a + b[..|b| - 1];
      RunPrefix(w, a, b[..|b| - 1]);
    }
  }

  lemma {:induction false} CarefulWithoutAttempts(w: World, steps: seq<Step>, more: seq<Step>)
    requires Careful(w, steps) && NoAttempt(more)
    ensures Careful(w, steps + more)
  {
    hide Run;
    if more == [] {
      assert steps + more == steps;
    } else {
      var front := more[..|more| - 1];
      CarefulWithoutAttempts(w, steps, front);
      assert (steps + more)[..|steps + more| - 1] == steps + front;
    }
  }

  lemma FreshRetryIsSafe(record: OutboxRecord, now: nat, slack: nat, history: seq<string>, steps: seq<Step>, more: seq<Step>)
    requires !StaleFailed(record, now) && RetryFrom(record, now, Init(slack, history), steps, more)
    ensures |Run(Init(slack, history), steps + [Load, Begin] + more).value.created| <= 1
  {
    hide Enabled, Run, Careful;
    var w := Init(slack, history);
    assert steps + [Load, Begin] == steps + [Load] + [Begin];
    RunPrefix(w, steps + [Load, Begin], more);
    RunPrefix(w, steps + [Load], [Begin]);
    RunSnoc(w, steps, Load);
    RunSnoc(w, steps + [Load], Begin);
    CarefulWithoutAttempts(w, steps + [Load, Begin], more);
    AtMostOnce(slack, history, steps + [Load, Begin] + more);
  }

  // The steps that calls of the service make; the rest is network and clock.
  function ClientSteps(steps: seq<Step>): seq<Step> {
    if steps == [] then []
    else
      var front, last := ClientSteps(steps[..|steps| - 1]), steps[|steps| - 1];
      if IsClientStep(last) then front + [last] else front
  }

  // A run to a given world, by given client steps.
  ghost predicate Reaches(start: World, steps: seq<Step>, w: World, calls: seq<Step>, careful: bool) {
    Run(start, steps) == Some(w) && ClientSteps(steps) == calls && (careful ==> Careful(start, steps))
  }

  lemma Take(start: World, steps: seq<Step>, w: World, calls: seq<Step>, careful: bool, step: Step,
             w': World, calls': seq<Step>) returns (longer: seq<Step>)
    requires Reaches(start, steps, w, calls, careful) && Enabled(w, step)
    requires Next(w, step) == w' && calls' == if IsClientStep(step) then calls + [step] else calls
    requires careful ==> CarefulStep(w, step)
    ensures longer == steps + [step] && Reaches(start, longer, w', calls', careful)
  {
    hide Enabled, Next, CarefulStep;
    RunSnoc(start, steps, step);
    assert (steps + [step])[..|steps|] == steps;
    longer := steps + [step];
  }

  lemma Relax(start: World, steps: seq<Step>, w: World, calls: seq<Step>)
    requires Reaches(start, steps, w, calls, true)
    ensures Reaches(start, steps, w, calls, false)
  {
  }

  // A loaded record is attempted.
  lemma SendOff(start: World, steps: seq<Step>, w: World, calls: seq<Step>, careful: bool, record: OutboxRecord,
                w': World, calls': seq<Step>) returns (longer: seq<Step>)
    requires Reaches(start, steps, w, calls, careful)
    requires w.client.disk == Some(record) && w.client.progress == Loaded && Unconfirmed(w.client)
    requires !UnconfirmedRetryWindowExpired(record, w.now) && (careful ==> !StaleFailed(record, w.now))
    requires w' == w.(client := Client(Some(Attempting(record, w.now)), Waiting, w.client.history),
                      inFlight := w.inFlight + [Attempt(record.providerUuid, record.text, record.channelId, w.now)])
    requires calls' == calls + [Begin, Transmit]
    ensures longer == steps + [Begin, Transmit] && Reaches(start, longer, w', calls', careful)
  {
    hide Reaches;
    var ready := w.(client := Client(Some(Attempting(record, w.now)), Ready(w.now), w.client.history));
    longer := Take(start, steps, w, calls, careful, Begin, ready, calls + [Begin]);
    longer := Take(start, longer, ready, calls + [Begin], careful, Transmit, w', calls');
  }

  function EnvironmentOf(now: nat, anchorError: Option<string>, authError: Option<string>, outcome: SendOutcome)
    : Environment
  {
    Environment(true, Some(Binding("feishu", "oc_1")), true, "delivery", "uuid", now, anchorError, authError, outcome,
                true)
  }

  // A reply that never comes.
  function Silence(now: nat): Environment {
    EnvironmentOf(now, None, None, TimedOut)
  }

  // What makes a call store a given failure.
  function FailureAt(now: nat, error: DeliveryError): Environment {
    match error
    case AnchorUnavailable(reason) => EnvironmentOf(now, Some(reason), None, TimedOut)
    case AuthenticationFailed(reason) => EnvironmentOf(now, None, Some(reason), TimedOut)
    case SendFailed(reason) => EnvironmentOf(now, None, None, ProviderError(reason))
    case _ => Silence(now)
  }

  function Doubtful(filed: OutboxRecord, first: nat): OutboxRecord {
    WithState(filed, Uncertain, Some(SendTimedOut)).(firstAttempt := Some(first))
  }

  // The provider has the message, under the id "m".
  function Arrived(record: OutboxRecord, first: nat, slack: nat, client: Client, heard: seq<Receipt>): World {
    World(client, first, slack, [], heard, map[record.providerUuid := Seen(first, "m")],
          [Posted(record.providerUuid, record.text, record.channelId, "m")])
  }

  // A first attempt whose message arrives while its reply is lost.
  lemma LostReply(filed: OutboxRecord, first: nat, slack: nat) returns (steps: seq<Step>)
    requires FreshRecord(filed)
    ensures Reaches(Init(slack, []), steps,
      Arrived(filed, first, slack, Client(Some(Doubtful(filed, first)), Idle, []), [Receipt(filed.providerUuid, first)]),
      [Create(filed)] + DeliverSteps(filed, Silence(first)), true)
  {
    var start, created := Init(slack, []), [Create(filed)];
    RunNothing(start);
    hide Reaches;
    var w := start.(now := first);
    steps := Take(start, [], start, [], true, Tick(first), w, []);
    var w1 := w.(client := Client(Some(filed), Loaded, []));
    steps := Take(start, steps, w, [], true, Create(filed), w1, created);
    steps := LoseReply(filed, first, slack, steps, w1);
  }

  lemma LoseReply(filed: OutboxRecord, first: nat, slack: nat, steps: seq<Step>, w: World) returns (longer: seq<Step>)
    requires FreshRecord(filed) && w == World(Client(Some(filed), Loaded, []), first, slack, [], [], map[], [])
    requires Reaches(Init(slack, []), steps, w, [Create(filed)], true)
    ensures Reaches(Init(slack, []), longer,
      Arrived(filed, first, slack, Client(Some(Doubtful(filed, first)), Idle, []), [Receipt(filed.providerUuid, first)]),
      [Create(filed)] + DeliverSteps(filed, Silence(first)), true)
  {
    hide Reaches;
    var start, calls := Init(slack, []), [Create(filed), Begin, Transmit];
    var out := w.(client := Client(Some(Attempting(filed, first)), Waiting, []),
                  inFlight := [Attempt(filed.providerUuid, filed.text, filed.channelId, first)]);
    longer := SendOff(start, steps, w, [Create(filed)], true, filed, out, calls);
    var arrived := Arrived(filed, first, slack, out.client, [Receipt(filed.providerUuid, first)]);
    longer := Take(start, longer, out, calls, true, Receive(0, Accept("m")), arrived, calls);
    longer := Take(start, longer, arrived, calls, true, GiveUp(SendTimedOut),
      arrived.(client := Client(Some(Doubtful(filed, first)), Idle, [])),
      [Create(filed)] + DeliverSteps(filed, Silence(first)));
  }

  // The record before its first attempt.
  function Filed(record: OutboxRecord): OutboxRecord {
    record.(receipt := record.receipt.(state := Pending, error := None), firstAttempt := None)
  }

  // A failed record whose window may run out.
  predicate FailedSince(record: OutboxRecord, first: nat) {
    && record.receipt.state == Failed && record.receipt.platformMessageId.None? && record.firstAttempt == Some(first)
    && record.receipt.error.Some? && IsFailure(record.receipt.error.value)
  }

  // The two calls that leave a given failed record behind.
  function CallsToForget(record: OutboxRecord, first: nat): seq<Step>
    requires FailedSince(record, first)
  {
    var filed := Filed(record);
    [Create(filed)] + DeliverSteps(filed, Silence(first))
    + ([Load] + DeliverSteps(Doubtful(filed, first), FailureAt(first, record.receipt.error.value)))
  }

  // The message arrived, and a second call at once overwrites "uncertain" with "failed":
  // it stops before sending, or the provider answers it with an error. All client steps
  // are those of the two calls.
  lemma {:induction false} ForgottenMessage(record: OutboxRecord, first: nat, slack: nat) returns (steps: seq<Step>, heard: seq<Receipt>)
    requires FailedSince(record, first)
    ensures Reaches(Init(slack, []), steps, Arrived(record, first, slack, Client(Some(record), Idle, []), heard),
                    CallsToForget(record, first), true)
  {
    var filed, error := Filed(record), record.receipt.error.value;
    hide Reaches;
    steps := LostReply(filed, first, slack);
    heard := [Receipt(record.providerUuid, first)];
    var start, calls := Init(slack, []), [Create(filed)] + DeliverSteps(filed, Silence(first));
    var idle := Arrived(record, first, slack, Client(Some(Doubtful(filed, first)), Idle, []), heard);
    var loaded := idle.(client := idle.client.(progress := Loaded));
    steps := Take(start, steps, idle, calls, true, Load, loaded, calls + [Load]);
    if IsRefusal(error) {
      steps := Take(start, steps, loaded, calls + [Load], true, Refuse(error),
        idle.(client := Client(Some(record), Idle, [])), CallsToForget(record, first));
    } else {
      steps, heard := FailAgain(record, first, slack, steps, calls + [Load], heard);
    }
  }

  lemma FailAgain(record: OutboxRecord, first: nat, slack: nat, steps: seq<Step>, calls: seq<Step>, heard: seq<Receipt>)
    returns (longer: seq<Step>, heard': seq<Receipt>)
    requires FailedSince(record, first) && record.receipt.error.value.SendFailed?
    requires calls == [Create(Filed(record))] + DeliverSteps(Filed(record), Silence(first)) + [Load]
    requires Reaches(Init(slack, []), steps,
      Arrived(record, first, slack, Client(Some(Doubtful(Filed(record), first)), Loaded, []), heard), calls, true)
    ensures Reaches(Init(slack, []), longer, Arrived(record, first, slack, Client(Some(record), Idle, []), heard'),
                    CallsToForget(record, first), true)
  {
    hide Reaches;
    var start, doubtful, error := Init(slack, []), Doubtful(Filed(record), first), record.receipt.error.value;
    var w := Arrived(record, first, slack, Client(Some(doubtful), Loaded, []), heard);
    var out := w.(client := Client(Some(Attempting(doubtful, first)), Waiting, []),
                  inFlight := [Attempt(record.providerUuid, record.text, record.channelId, first)]);
    var sent := calls + [Begin, Transmit];
    longer := SendOff(start, steps, w, calls, true, doubtful, out, sent);
    heard' := heard + [Receipt(record.providerUuid, first)];
    var rejected := Arrived(record, first, slack, out.client, heard');
    longer := Take(start, longer, out, sent, true, Receive(0, Reject), rejected, sent);
    longer := Take(start, longer, rejected, sent, true, FailReply(error),
      rejected.(client := Client(Some(record), Idle, [])), CallsToForget(record, first));
  }

  lemma RunNothing(w: World)
    ensures Reaches(w, [], w, [], true)
  {
  }

  // From there, once the window is over, one more call posts the message again. Its
  // client steps, too, are exactly those of a call.
  lemma StaleRetryPostsTwice(record: OutboxRecord, now: nat, slack: nat) returns (steps: seq<Step>, more: seq<Step>)
    requires StaleFailed(record, now) && FailedSince(record, record.firstAttempt.value)
    ensures RetryFrom(record, now, Init(slack, []), steps, more)
    ensures |Run(Init(slack, []), steps + [Load, Begin] + more).value.created| == 2
    ensures ClientSteps(steps) == CallsToForget(record, record.firstAttempt.value)
    ensures ClientSteps(steps + [Load, Begin] + more)
         == ClientSteps(steps) + ([Load] + DeliverSteps(record, EnvironmentOf(now, None, None, Replied("n"))))
  {
    var start, first := Init(slack, []), record.firstAttempt.value;
    var lost, heard := ForgottenMessage(record, first, slack);
    var idle, calls := Arrived(record, first, slack, Client(Some(record), Idle, []), heard), CallsToForget(record, first);
    var late := idle.(now := now);
    steps := StillForgotten(record, now, slack, lost, heard);
    var retried := RetryAfterWindow(record, now, slack, steps, calls, heard);
    more := [Transmit, Tick(slack), Receive(0, Accept("n")), Confirm("n")];
    hide *;
    assert retried == steps + [Load, Begin] + more;
    RetryIsFrom(record, now, slack, steps, more, calls, heard);
  }

  lemma StillForgotten(record: OutboxRecord, now: nat, slack: nat, lost: seq<Step>, heard: seq<Receipt>)
    returns (steps: seq<Step>)
    requires StaleFailed(record, now) && FailedSince(record, record.firstAttempt.value)
    requires
      var first := record.firstAttempt.value;
      Reaches(Init(slack, []), lost, Arrived(record, first, slack, Client(Some(record), Idle, []), heard),
              CallsToForget(record, first), true)
    ensures
      var first := record.firstAttempt.value;
      Reaches(Init(slack, []), steps, Arrived(record, first, slack, Client(Some(record), Idle, []), heard).(now := now),
              CallsToForget(record, first), true)
  {
    hide Reaches, CallsToForget;
    var first := record.firstAttempt.value;
    var idle := Arrived(record, first, slack, Client(Some(record), Idle, []), heard);
    var calls := CallsToForget(record, first);
    steps := Take(Init(slack, []), lost, idle, calls, true, Tick(now - first), idle.(now := now), calls);
  }

  lemma RetryIsFrom(record: OutboxRecord, now: nat, slack: nat, steps: seq<Step>, more: seq<Step>, calls: seq<Step>,
                    heard: seq<Receipt>)
    requires StaleFailed(record, now)
    requires Reaches(Init(slack, []), steps,
      Arrived(record, record.firstAttempt.value, slack, Client(Some(record), Idle, []), heard).(now := now), calls, true)
    requires more == [Transmit, Tick(slack), Receive(0, Accept("n")), Confirm("n")]
    requires Run(Init(slack, []), steps + [Load, Begin] + more).Some?
    ensures RetryFrom(record, now, Init(slack, []), steps, more)
    ensures ClientSteps(steps) == calls
  {
    hide Run, Careful, ClientSteps;
  }

  // The retry's request is on its way.
  function RetryOut(record: OutboxRecord, now: nat, slack: nat, heard: seq<Receipt>): World
    requires record.firstAttempt.Some?
  {
    Arrived(record, record.firstAttempt.value, slack, Client(Some(Attempting(record, now)), Waiting, []), heard)
    .(now := now, inFlight := [Attempt(record.providerUuid, record.text, record.channelId, now)])
  }

  lemma WindowIsOver(record: OutboxRecord, now: nat, slack: nat, w: World)
    requires StaleFailed(record, now)
    requires w.now == now + slack && w.slack == slack
    requires w.seen == map[record.providerUuid := Seen(record.firstAttempt.value, "m")]
    ensures !Remembered(w, record.providerUuid)
  {
  }

  lemma LoadAndSendOff(record: OutboxRecord, now: nat, slack: nat, steps: seq<Step>, calls: seq<Step>, heard: seq<Receipt>,
                       out: World, sent: seq<Step>) returns (retried: seq<Step>)
    requires StaleFailed(record, now) && FailedSince(record, record.firstAttempt.value)
    requires Reaches(Init(slack, []), steps,
      Arrived(record, record.firstAttempt.value, slack, Client(Some(record), Idle, []), heard).(now := now), calls, true)
    requires out == RetryOut(record, now, slack, heard) && sent == calls + [Load] + [Begin, Transmit]
    ensures retried == steps + [Load] + [Begin, Transmit] && Reaches(Init(slack, []), retried, out, sent, false)
  {
    var start, first := Init(slack, []), record.firstAttempt.value;
    var idle := Arrived(record, first, slack, Client(Some(record), Idle, []), heard).(now := now);
    Relax(start, steps, idle, calls);
    hide Reaches;
    var loaded := idle.(client := Client(Some(record), Loaded, []));
    retried := Take(start, steps, idle, calls, false, Load, loaded, calls + [Load]);
    retried := SendOff(start, retried, loaded, calls + [Load], false, record, out, sent);
  }

  lemma RetryAfterWindow(record: OutboxRecord, now: nat, slack: nat, steps: seq<Step>, calls: seq<Step>, heard: seq<Receipt>)
    returns (retried: seq<Step>)
    requires StaleFailed(record, now) && FailedSince(record, record.firstAttempt.value)
    requires Reaches(Init(slack, []), steps,
      Arrived(record, record.firstAttempt.value, slack, Client(Some(record), Idle, []), heard).(now := now), calls, true)
    ensures retried == steps + [Load, Begin] + [Transmit, Tick(slack), Receive(0, Accept("n")), Confirm("n")]
    ensures Run(Init(slack, []), retried).Some? && |Run(Init(slack, []), retried).value.created| == 2
    ensures ClientSteps(retried)
         == calls + ([Load] + DeliverSteps(record, EnvironmentOf(now, None, None, Replied("n"))))
  {
    assert record.firstAttempt.Some?;
    hide *;
    var sent := calls + [Load] + [Begin, Transmit];
    retried := LoadAndSendOff(record, now, slack, steps, calls, heard, RetryOut(record, now, slack, heard), sent);
    retried := WaitOutDelay(record, now, slack, retried, sent, heard);
    retried := RetryArrives(record, now, slack, retried, sent, heard);
    RetryIsCall(record, now, calls);
    SixSteps(steps, Load, Begin, Transmit, Tick(slack), Receive(0, Accept("n")), Confirm("n"));
  }

  lemma SixSteps<T>(s: seq<T>, a: T, b: T, c: T, d: T, e: T, f: T)
    ensures s + [a] + [b, c] + [d] + [e] + [f] == s + [a, b] + [c, d, e, f]
  {
  }

  lemma RetryIsCall(record: OutboxRecord, now: nat, calls: seq<Step>)
    requires StaleFailed(record, now)
    ensures calls + [Load] + [Begin, Transmit] + [Confirm("n")]
         == calls + ([Load] + DeliverSteps(record, EnvironmentOf(now, None, None, Replied("n"))))
  {
  }

  lemma WaitOutDelay(record: OutboxRecord, now: nat, slack: nat, steps: seq<Step>, sent: seq<Step>, heard: seq<Receipt>)
    returns (later: seq<Step>)
    requires record.firstAttempt.Some? && Reaches(Init(slack, []), steps, RetryOut(record, now, slack, heard), sent, false)
    ensures later == steps + [Tick(slack)]
    ensures Reaches(Init(slack, []), later, RetryOut(record, now, slack, heard).(now := now + slack), sent, false)
  {
    hide Reaches;
    var out := RetryOut(record, now, slack, heard);
    later := Take(Init(slack, []), steps, out, sent, false, Tick(slack), out.(now := now + slack), sent);
  }

  lemma RetryArrives(record: OutboxRecord, now: nat, slack: nat, steps: seq<Step>, sent: seq<Step>, heard: seq<Receipt>)
    returns (retried: seq<Step>)
    requires StaleFailed(record, now)
    requires Reaches(Init(slack, []), steps, RetryOut(record, now, slack, heard).(now := now + slack), sent, false)
    ensures retried == steps + [Receive(0, Accept("n"))] + [Confirm("n")]
    ensures Run(Init(slack, []), retried).Some? && |Run(Init(slack, []), retried).value.created| == 2
    ensures ClientSteps(retried) == sent + [Confirm("n")]
  {
    hide Reaches, Run, ClientSteps;
    var w := RetryOut(record, now, slack, heard).(now := now + slack);
    WindowIsOver(record, now, slack, w);
    retried := SecondMessage(Init(slack, []), steps, w, sent);
  }

  // The provider has forgotten the UUID.
  lemma SecondMessage(start: World, steps: seq<Step>, w: World, calls: seq<Step>) returns (retried: seq<Step>)
    requires Reaches(start, steps, w, calls, false) && |w.inFlight| == 1 && |w.created| == 1 && w.created[0].id == "m"
    requires w.now <= w.inFlight[0].checkedAt + w.slack && !Remembered(w, w.inFlight[0].providerUuid)
    requires w.client.progress == Waiting && w.client.disk.Some?
    ensures retried == steps + [Receive(0, Accept("n"))] + [Confirm("n")]
    ensures Run(start, retried).Some? && |Run(start, retried).value.created| == 2
    ensures ClientSteps(retried) == calls + [Confirm("n")]
  {
    var w' := Received(w, 0, Accept("n"));
    retried := Take(start, steps, w, calls, false, Receive(0, Accept("n")), w', calls);
    assert w'.created[1].id == "n";
    retried := Take(start, retried, w', calls, false, Confirm("n"), Next(w', Confirm("n")), calls + [Confirm("n")]);
  }

  lemma UnsafeRetry(record: OutboxRecord, now: nat, slack: nat, history: seq<string>, steps: seq<Step>, more: seq<Step>)
    requires RetryFrom(record, now, Init(slack, history), steps, more)
    requires Run(Init(slack, history), steps + [Load, Begin] + more).Some?
    requires |Run(Init(slack, history), steps + [Load, Begin] + more).value.created| > 1
    ensures !RetryIsSafe(record, now, slack)
  {
    hide Run, Careful, RetryFrom;
  }

  // A retry risks a second message exactly when the record it starts from says
  // "failed" and its first attempt is an hour or more ago: the one case that the
  // code's own window check, which looks at "uncertain" and "sending" only, lets by.
  // (A failed record that is ever stored has the form asked for: `ReachableRecords`.)
  lemma RetryIsSafeExactly(record: OutboxRecord, now: nat, slack: nat)
    requires record.receipt.state == Failed ==>
      && record.receipt.platformMessageId.None?
      && record.receipt.error.Some? && IsFailure(record.receipt.error.value)
    ensures RetryIsSafe(record, now, slack) <==> !StaleFailed(record, now)
  {
    hide Run, Careful;
    if StaleFailed(record, now) {
      var steps, more := StaleRetryPostsTwice(record, now, slack);
      UnsafeRetry(record, now, slack, [], steps, more);
    } else {
      forall history, steps, more | RetryFrom(record, now, Init(slack, history), steps, more)
        ensures |Run(Init(slack, history), steps + [Load, Begin] + more).value.created| <= 1
      {
        FreshRetryIsSafe(record, now, slack, history, steps, more);
      }
    }
  }
}
