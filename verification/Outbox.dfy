/** Durable proactive delivery (`src/proactive.rs`).

`DeliveryService.Send` is a retryable outbox: it saves its record before and after
each outside effect and may stop anywhere in between. The class below is that code.
Its effects are the client steps of a step system, in which the process can stop
after any step and be restarted, requests and replies can be delayed or lost, and
the clock runs. `OutboxLaws` proves what holds over all runs of that system.
*/
module Outbox {
  import opened Text

  datatype DeliveryState = Pending | Sending | Sent | Uncertain | Failed | Complete

  // The error texts of the receipt, one constructor for each.
  datatype DeliveryError =
    | WindowExpired | AnchorUnavailable(reason: string) | AuthenticationFailed(reason: string)
    | SendTimedOut | SendFailed(reason: string) | NoMessageId | RuntimeStopped

  datatype DeliveryReceipt = DeliveryReceipt(
    sessionId: string, deliveryId: string, idempotencyKey: string,
    state: DeliveryState, platformMessageId: Option<string>, error: Option<DeliveryError>)

  datatype OutboxRecord = OutboxRecord(
    receipt: DeliveryReceipt, text: string, platform: string, channelId: string,
    providerUuid: string, firstAttempt: Option<nat>)

  // The errors of a call that stops before it sends anything.
  predicate IsRefusal(error: DeliveryError) {
    error.AnchorUnavailable? || error.AuthenticationFailed?
  }

  // The errors that leave open whether the message is out.
  predicate IsDoubt(error: DeliveryError) {
    error.SendTimedOut? || error.SendFailed? || error.NoMessageId?
  }

  // One hour, in seconds.
  const DEDUPE_WINDOW: nat := 60 * 60

  predicate SameDelivery(record: OutboxRecord, text: string, platform: string, channelId: string) {
    record.text == text && record.platform == platform && record.channelId == channelId
  }

  predicate AttemptedLongAgo(record: OutboxRecord, now: nat) {
    record.firstAttempt.Some? && record.firstAttempt.value + DEDUPE_WINDOW <= now
  }

  predicate UnconfirmedRetryWindowExpired(record: OutboxRecord, now: nat) {
    record.receipt.state in {Uncertain, Sending} && AttemptedLongAgo(record, now)
  }

  function WithState(record: OutboxRecord, state: DeliveryState, error: Option<DeliveryError>): OutboxRecord {
    record.(receipt := record.receipt.(state := state, error := error))
  }

  // What an outside reader is told while no runtime is running.
  function ReadStatus(record: OutboxRecord): DeliveryReceipt {
    if record.receipt.state == Sending then record.receipt.(state := Uncertain, error := Some(RuntimeStopped))
    else record.receipt
  }

  // ---------------------------------------------------------------------------
  // Client steps, for one (session, idempotency key)
  // ---------------------------------------------------------------------------

  // How far a call has come. The record in memory equals the saved one at each point.
  datatype Progress = Idle | Loaded | Ready(checkedAt: nat) | Waiting | Confirmed | Appended

  // `history` holds the delivery ids of the session's chat messages.
  datatype Client = Client(disk: Option<OutboxRecord>, progress: Progress, history: seq<string>)

  datatype Verdict = Accept(id: string) | Reject

  datatype Step =
    // the client
    | Create(record: OutboxRecord)
    | Load
    | Expire
    | Refuse(error: DeliveryError)
    | Begin
    | Transmit
    | Confirm(id: string)
    | GiveUp(error: DeliveryError)
    | FailReply(error: DeliveryError)
    | AlreadyConfirmed
    | Append
    | Finish
    | Stop
    // everything else
    | Receive(index: nat, verdict: Verdict)
    | Lose(index: nat)
    | Tick(seconds: nat)
    | Chat(id: string)

  predicate IsClientStep(step: Step) {
    !step.Receive? && !step.Lose? && !step.Tick? && !step.Chat?
  }

  predicate FreshRecord(record: OutboxRecord) {
    && record.receipt.state == Pending && record.receipt.platformMessageId.None?
    && record.receipt.error.None? && record.firstAttempt.None?
  }

  predicate Unconfirmed(client: Client) {
    && client.progress == Loaded && client.disk.Some?
    && client.disk.value.receipt.state != Complete
    && client.disk.value.receipt.platformMessageId.None?
  }

  predicate ClientEnabled(client: Client, step: Step, now: nat) {
    match step
    case Create(record) =>
      client.progress == Idle && client.disk.None? && FreshRecord(record)
      && record.receipt.deliveryId !in client.history
    case Load => client.progress == Idle && client.disk.Some?
    case Expire => Unconfirmed(client) && UnconfirmedRetryWindowExpired(client.disk.value, now)
    case Refuse(error) =>
      IsRefusal(error) && Unconfirmed(client) && !UnconfirmedRetryWindowExpired(client.disk.value, now)
    case Begin => Unconfirmed(client) && !UnconfirmedRetryWindowExpired(client.disk.value, now)
    case Transmit => client.progress.Ready? && client.disk.Some?
    case Confirm(id) => client.progress == Waiting && client.disk.Some? && id != ""
    case GiveUp(error) => IsDoubt(error) && client.progress == Waiting && client.disk.Some?
    case FailReply(error) => error.SendFailed? && client.progress == Waiting && client.disk.Some?
    case AlreadyConfirmed =>
      client.progress == Loaded && client.disk.Some?
      && client.disk.value.receipt.state != Complete && client.disk.value.receipt.platformMessageId.Some?
    case Append => client.progress == Confirmed && client.disk.Some?
    case Finish => client.progress == Appended && client.disk.Some?
    case Stop => true
    case _ => false
  }

  function ClientNext(client: Client, step: Step, now: nat): Client
    requires ClientEnabled(client, step, now)
  {
    match step
    case Create(record) => client.(disk := Some(record), progress := Loaded)
    case Load => client.(progress := Loaded)
    case Expire => client.(disk := Some(WithState(client.disk.value, Uncertain, Some(WindowExpired))), progress := Idle)
    case Refuse(error) => client.(disk := Some(WithState(client.disk.value, Failed, Some(error))), progress := Idle)
    case Begin =>
      var record := client.disk.value;
      var first := if record.firstAttempt.None? then Some(now) else record.firstAttempt;
      client.(disk := Some(WithState(record, Sending, None).(firstAttempt := first)), progress := Ready(now))
    case Transmit => client.(progress := Waiting)
    case Confirm(id) =>
      var record := WithState(client.disk.value, Sent, client.disk.value.receipt.error);
      client.(disk := Some(record.(receipt := record.receipt.(platformMessageId := Some(id)))), progress := Confirmed)
    case GiveUp(error) => client.(disk := Some(WithState(client.disk.value, Uncertain, Some(error))), progress := Idle)
    case FailReply(error) => client.(disk := Some(WithState(client.disk.value, Failed, Some(error))), progress := Idle)
    case AlreadyConfirmed => client.(progress := Confirmed)
    case Append =>
      var id := client.disk.value.receipt.deliveryId;
      client.(history := if id in client.history then client.history else client.history + [id], progress := Appended)
    case Finish => client.(disk := Some(WithState(client.disk.value, Complete, None)), progress := Idle)
    case _ => client.(progress := Idle)
  }

  // What a client step leaves outside the process: a saved record, a request on the
  // wire, a chat message.
  datatype Effect =
    | Saved(record: OutboxRecord)
    | Called(providerUuid: string, text: string, channelId: string)
    | Logged(deliveryId: string)

  predicate SavesRecord(step: Step) {
    || step.Create? || step.Expire? || step.Refuse? || step.Begin?
    || step.Confirm? || step.GiveUp? || step.FailReply? || step.Finish?
  }

  function EffectOf(before: Client, step: Step, after: Client): seq<Effect> {
    if after.disk.None? then []
    else
      var record := after.disk.value;
      if SavesRecord(step) then [Saved(record)]
      else if step.Transmit? then [Called(record.providerUuid, record.text, record.channelId)]
      else if step.Append? && record.receipt.deliveryId !in before.history then [Logged(record.receipt.deliveryId)]
      else []
  }

  // The client and its effects after some of its own steps, or nothing if one was
  // not allowed.
  function ClientRun(client: Client, steps: seq<Step>, now: nat): Option<(Client, seq<Effect>)> {
    if steps == [] then Some((client, []))
    else
      var before := ClientRun(client, steps[..|steps| - 1], now);
      var step := steps[|steps| - 1];
      if before.Some? && ClientEnabled(before.value.0, step, now) then
        var after := ClientNext(before.value.0, step, now);
        Some((after, before.value.1 + EffectOf(before.value.0, step, after)))
      else None
  }

  ghost predicate Did(before: Client, steps: seq<Step>, now: nat, after: Client, effects: seq<Effect>) {
    ClientRun(before, steps, now) == Some((after, effects))
  }

  lemma DidNothing(client: Client, now: nat)
    ensures Did(client, [], now, client, [])
  {
  }

  lemma DidOne(client: Client, step: Step, now: nat)
    requires ClientEnabled(client, step, now)
    ensures Did(client, [step], now, ClientNext(client, step, now), EffectOf(client, step, ClientNext(client, step, now)))
  {
    hide ClientEnabled, ClientNext, EffectOf;
    assert [step][..0] == [];
    var after := ClientNext(client, step, now);
    assert ClientRun(client, [step][..0], now) == Some((client, []));
    assert [] + EffectOf(client, step, after) == EffectOf(client, step, after);
  }

  lemma {:induction false} DidThen(a: Client, first: seq<Step>, b: Client, firstEffects: seq<Effect>,
                                   second: seq<Step>, c: Client, secondEffects: seq<Effect>, now: nat)
    requires Did(a, first, now, b, firstEffects) && Did(b, second, now, c, secondEffects)
    ensures Did(a, first + second, now, c, firstEffects + secondEffects)
  {
    hide ClientEnabled, ClientNext, EffectOf;
    if second == [] {
      assert first + second == first && firstEffects + secondEffects == firstEffects;
    } else {
      var front, last := second[..|second| - 1], second[|second| - 1];
      assert (first + second)[..|first + second| - 1] == first + front;
      var (mid, effects) := ClientRun(b, front, now).value;
      DidThen(a, first, b, firstEffects, front, mid, effects, now);
      assert firstEffects + (effects + EffectOf(mid, last, c)) == firstEffects + effects + EffectOf(mid, last, c);
    }
  }

  // ---------------------------------------------------------------------------
  // The service
  // ---------------------------------------------------------------------------

  datatype Request = Request(sessionId: string, text: string, idempotencyKey: string)

  datatype Binding = Binding(platform: string, channelId: string)

  datatype SendOutcome = Replied(id: string) | TransportError(message: string) | ProviderError(message: string) | TimedOut

  // What one call meets outside: the request checks, the session and gateway lookups,
  // fresh UUIDs, the topic anchor, authentication, the provider's answer, the ledger.
  datatype Environment = Environment(
    requestAccepted: bool, session: Option<Binding>, gatewayConfigured: bool,
    deliveryId: string, providerUuid: string, now: nat,
    anchorError: Option<string>, authError: Option<string>, outcome: SendOutcome, ledgerWritable: bool)

  datatype SendResult = Ok(receipt: DeliveryReceipt) | Err

  function SlotOf(record: OutboxRecord): (string, string) {
    (record.receipt.sessionId, record.receipt.idempotencyKey)
  }

  // Why a delivery is not attempted now, if it is not.
  function Blocked(record: OutboxRecord, env: Environment): Option<(DeliveryState, DeliveryError)> {
    if UnconfirmedRetryWindowExpired(record, env.now) then Some((Uncertain, WindowExpired))
    else if env.anchorError.Some? then Some((Failed, AnchorUnavailable(env.anchorError.value)))
    else if env.authError.Some? then Some((Failed, AuthenticationFailed(env.authError.value)))
    else None
  }

  function Attempting(record: OutboxRecord, now: nat): OutboxRecord {
    WithState(record, Sending, None).(
      firstAttempt := if record.firstAttempt.None? then Some(now) else record.firstAttempt)
  }

  // What the provider's answer says about the delivery.
  function Answered(attempt: OutboxRecord, outcome: SendOutcome): OutboxRecord {
    match outcome
    case Replied(id) =>
      if id == "" then WithState(attempt, Uncertain, Some(NoMessageId))
      else attempt.(receipt := attempt.receipt.(state := Sent, platformMessageId := Some(id)))
    case TransportError(message) => WithState(attempt, Uncertain, Some(SendFailed(message)))
    case ProviderError(message) => WithState(attempt, Failed, Some(SendFailed(message)))
    case TimedOut => WithState(attempt, Uncertain, Some(SendTimedOut))
  }

  function Delivered(record: OutboxRecord, env: Environment): (delivered: OutboxRecord)
    ensures SlotOf(delivered) == SlotOf(record)
    ensures SameDelivery(delivered, record.text, record.platform, record.channelId)
  {
    match Blocked(record, env)
    case Some((state, error)) => WithState(record, state, Some(error))
    case None => Answered(Attempting(record, env.now), env.outcome)
  }

  function DeliverSteps(record: OutboxRecord, env: Environment): seq<Step> {
    match Blocked(record, env)
    case Some((state, error)) => [if state == Uncertain then Expire else Refuse(error)]
    case None =>
      [Begin] + [Transmit] +
      match env.outcome
      case Replied(id) => [if id == "" then GiveUp(NoMessageId) else Confirm(id)]
      case TransportError(message) => [GiveUp(SendFailed(message))]
      case ProviderError(message) => [FailReply(SendFailed(message))]
      case TimedOut => [GiveUp(SendTimedOut)]
  }

  function DeliverEffects(record: OutboxRecord, env: Environment): seq<Effect> {
    if Blocked(record, env).Some? then [Saved(Delivered(record, env))]
    else [Saved(Attempting(record, env.now))] + [Called(record.providerUuid, record.text, record.channelId)]
         + [Saved(Delivered(record, env))]
  }

  lemma DeliverIsARun(record: OutboxRecord, env: Environment, history: seq<string>)
    requires Unconfirmed(Client(Some(record), Loaded, history))
    ensures
      var delivered := Delivered(record, env);
      Did(Client(Some(record), Loaded, history), DeliverSteps(record, env), env.now,
          Client(Some(delivered), if delivered.receipt.state == Sent then Confirmed else Idle, history),
          DeliverEffects(record, env))
  {
    hide Did;
    var start, steps := Client(Some(record), Loaded, history), DeliverSteps(record, env);
    if Blocked(record, env).Some? {
      DidOne(start, steps[0], env.now);
    } else {
      var ready := Client(Some(Attempting(record, env.now)), Ready(env.now), history);
      var waiting := ready.(progress := Waiting);
      DidOne(start, Begin, env.now);
      DidOne(ready, Transmit, env.now);
      DidOne(waiting, steps[2], env.now);
      var end := ClientNext(waiting, steps[2], env.now);
      DidThen(start, [Begin], ready, EffectOf(start, Begin, ready),
              [Transmit], waiting, EffectOf(ready, Transmit, waiting), env.now);
      DidThen(start, [Begin] + [Transmit], waiting, EffectOf(start, Begin, ready) + EffectOf(ready, Transmit, waiting),
              [steps[2]], end, EffectOf(waiting, steps[2], end), env.now);
    }
  }

  // ---------------------------------------------------------------------------
  // What a caller is promised
  // ---------------------------------------------------------------------------

  // The requests to the provider among some effects.
  ghost function CallsIn(effects: seq<Effect>): seq<Effect> {
    if effects == [] then []
    else
      var front, last := CallsIn(effects[..|effects| - 1]), effects[|effects| - 1];
      if last.Called? then front + [last] else front
  }

  lemma {:induction false} CallsConcat(a: seq<Effect>, b: seq<Effect>)
    ensures CallsIn(a + b) == CallsIn(a) + CallsIn(b)
  {
    if b == [] {
      assert a + b == a;
    } else {
      assert (a + b)[..|a + b| - 1] == a + b[..|b| - 1];
      CallsConcat(a, b[..|b| - 1]);
    }
  }

  lemma CallsOfOne(effect: Effect)
    ensures CallsIn([effect]) == if effect.Called? then [effect] else []
  {
    assert [effect][..0] == [];
  }

  // A call that ends before it touches a record: the request, the session or the
  // gateway is not there, or the key belongs to another delivery.
  ghost predicate TurnedAway(known: Option<OutboxRecord>, request: Request, env: Environment) {
    || !env.requestAccepted || env.session.None? || !env.gatewayConfigured
    || (known.Some? && (|| known.value.text != request.text
                        || known.value.platform != env.session.value.platform
                        || known.value.channelId != env.session.value.channelId))
  }

  // The record any other call works on.
  ghost function WorksOn(known: Option<OutboxRecord>, request: Request, env: Environment): OutboxRecord
    requires !TurnedAway(known, request, env)
  {
    match known
    case Some(record) => record
    case None =>
      OutboxRecord(DeliveryReceipt(request.sessionId, env.deliveryId, request.idempotencyKey, Pending, None, None),
                   request.text, env.session.value.platform, env.session.value.channelId, env.providerUuid, None)
  }

  ghost predicate WindowOver(record: OutboxRecord, now: nat) {
    && (record.receipt.state == Uncertain || record.receipt.state == Sending)
    && record.firstAttempt.Some? && now >= record.firstAttempt.value + 3600
  }

  // The message is asked for.
  ghost predicate Attempts(record: OutboxRecord, env: Environment) {
    && record.receipt.state != Complete && record.receipt.platformMessageId.None?
    && !WindowOver(record, env.now) && env.anchorError.None? && env.authError.None?
  }

  // The message known to be out, from before or by this call.
  ghost function MessageOut(record: OutboxRecord, env: Environment): Option<string> {
    if record.receipt.platformMessageId.Some? then record.receipt.platformMessageId
    else if Attempts(record, env) && env.outcome.Replied? && env.outcome.id != "" then Some(env.outcome.id)
    else None
  }

  // The state and the error that the call leaves in the record.
  ghost predicate LeavesState(record: OutboxRecord, env: Environment, state: DeliveryState, error: Option<DeliveryError>) {
    if record.receipt.state == Complete then state == Complete && error == record.receipt.error
    else if MessageOut(record, env).Some? then
      if env.ledgerWritable then state == Complete && error == None
      else if record.receipt.platformMessageId.Some? then state == record.receipt.state && error == record.receipt.error
      else state == Sent && error == None
    else if WindowOver(record, env.now) then state == Uncertain && error == Some(WindowExpired)
    else if env.anchorError.Some? then state == Failed && error == Some(AnchorUnavailable(env.anchorError.value))
    else if env.authError.Some? then state == Failed && error == Some(AuthenticationFailed(env.authError.value))
    else
      match env.outcome
      case Replied(_) => state == Uncertain && error == Some(NoMessageId)
      case TransportError(message) => state == Uncertain && error == Some(SendFailed(message))
      case ProviderError(message) => state == Failed && error == Some(SendFailed(message))
      case TimedOut => state == Uncertain && error == Some(SendTimedOut)
  }

  // One request exactly if the message is asked for; the history gets the delivery
  // once its message is out; and the caller is told what is on disk, or that the
  // history could not be written.
  ghost predicate Reports(record: OutboxRecord, env: Environment, result: SendResult, effects: seq<Effect>,
                          history: seq<string>, after: Client)
  {
    var known, id := record.receipt, record.receipt.deliveryId;
    var closes := known.state != Complete && MessageOut(record, env).Some?;
    && CallsIn(effects)
       == (if Attempts(record, env) then [Called(record.providerUuid, record.text, record.channelId)] else [])
    && after.history == (if closes && env.ledgerWritable && id !in history then history + [id] else history)
    && after.disk.Some? && LeavesState(record, env, after.disk.value.receipt.state, after.disk.value.receipt.error)
    && after.disk.value
       == record.(receipt := known.(state := after.disk.value.receipt.state, error := after.disk.value.receipt.error,
                                    platformMessageId := MessageOut(record, env)),
                  firstAttempt := if Attempts(record, env) && record.firstAttempt.None? then Some(env.now)
                                  else record.firstAttempt)
    && result == (if closes && !env.ledgerWritable then Err else Ok(after.disk.value.receipt))
  }

  lemma DeliveredReports(record: OutboxRecord, env: Environment)
    requires record.receipt.state != Complete && record.receipt.platformMessageId.None?
    ensures
      var delivered := Delivered(record, env);
      var known := delivered.receipt;
      && (known.state == Sent <==> MessageOut(record, env).Some?)
      && (known.state == Sent ==> known.error == None)
      && (known.state != Sent ==> LeavesState(record, env, known.state, known.error))
      && delivered == record.(receipt := record.receipt.(state := known.state, error := known.error,
                                                         platformMessageId := MessageOut(record, env)),
                              firstAttempt := if Attempts(record, env) && record.firstAttempt.None? then Some(env.now)
                                              else record.firstAttempt)
    ensures CallsIn(DeliverEffects(record, env))
         == if Attempts(record, env) then [Called(record.providerUuid, record.text, record.channelId)] else []
  {
    hide CallsIn;
    var end := Saved(Delivered(record, env));
    CallsOfOne(end);
    if Attempts(record, env) {
      var begin, call := Saved(Attempting(record, env.now)), Called(record.providerUuid, record.text, record.channelId);
      CallsOfOne(begin);
      CallsOfOne(call);
      CallsConcat([begin], [call]);
      CallsConcat([begin] + [call], [end]);
    }
  }

  class DeliveryService {
    var outbox: map<(string, string), OutboxRecord>
    var ledger: map<string, seq<string>>
    // Everything done outside the process, in order.
    ghost var journal: seq<Effect>

    function View(sessionId: string, key: string): Client
      reads this
    {
      Client(if (sessionId, key) in outbox then Some(outbox[(sessionId, key)]) else None, Idle, Ledger(sessionId))
    }

    function Ledger(sessionId: string): seq<string>
      reads this
    {
      if sessionId in ledger then ledger[sessionId] else []
    }

    // Every record is filed under its own session and key.
    ghost predicate Valid()
      reads this
    {
      forall slot :: slot in outbox ==> slot == SlotOf(outbox[slot])
    }

    constructor ()
      ensures Valid() && outbox == map[] && ledger == map[] && journal == []
    {
      outbox := map[];
      ledger := map[];
      journal := [];
    }

    method Save(record: OutboxRecord)
      modifies this`outbox, this`journal
      ensures outbox == old(outbox)[SlotOf(record) := record]
      ensures journal == old(journal) + [Saved(record)]
    {
      outbox := outbox[SlotOf(record) := record];
      journal := journal + [Saved(record)];
    }

    method Status(sessionId: string, key: string) returns (result: SendResult)
      ensures result == match View(sessionId, key).disk case Some(record) => Ok(record.receipt) case None => Err
    {
      if (sessionId, key) in outbox {
        result := Ok(outbox[(sessionId, key)].receipt);
      } else {
        result := Err;
      }
    }

    method AppendProactiveAssistantMessage(sessionId: string, deliveryId: string)
      modifies this`ledger, this`journal
      ensures Ledger(sessionId) == if deliveryId in old(Ledger(sessionId)) then old(Ledger(sessionId))
                                   else old(Ledger(sessionId)) + [deliveryId]
      ensures forall other :: other != sessionId ==> Ledger(other) == old(Ledger(other))
      ensures journal == old(journal) + if deliveryId in old(Ledger(sessionId)) then [] else [Logged(deliveryId)]
    {
      if deliveryId in Ledger(sessionId) {
        return;
      }
      ledger := ledger[sessionId := Ledger(sessionId) + [deliveryId]];
      journal := journal + [Logged(deliveryId)];
    }

    // Loads the record of a key, or files a new one.
    method Open(request: Request, binding: Binding, env: Environment)
      returns (found: Option<OutboxRecord>, ghost steps: seq<Step>, ghost effects: seq<Effect>)
      requires Valid() && env.deliveryId !in Ledger(request.sessionId)
      modifies this`outbox, this`journal
      ensures Valid() && journal == old(journal) + effects
      ensures
        var slot := (request.sessionId, request.idempotencyKey);
        if slot in old(outbox) then
          && outbox == old(outbox)
          && (found == None || found == Some(outbox[slot]))
          && (found.Some? <==> && outbox[slot].text == request.text && outbox[slot].platform == binding.platform
                               && outbox[slot].channelId == binding.channelId)
        else
          && found.Some? && outbox == old(outbox)[slot := found.value]
          && found == Some(OutboxRecord(
               DeliveryReceipt(request.sessionId, env.deliveryId, request.idempotencyKey, Pending, None, None),
               request.text, binding.platform, binding.channelId, env.providerUuid, None))
      ensures CallsIn(effects) == [] && (found.None? ==> effects == [])
      ensures found.Some? ==>
        && SlotOf(found.value) == (request.sessionId, request.idempotencyKey)
        && Did(old(View(request.sessionId, request.idempotencyKey)), steps, env.now,
               View(request.sessionId, request.idempotencyKey).(progress := Loaded), effects)
    {
      hide Did, CallsIn;
      NoCalls();
      var slot := (request.sessionId, request.idempotencyKey);
      ghost var start := View(request.sessionId, request.idempotencyKey);
      if slot in outbox {
        steps, effects := [Load], [];
        DidOne(start, Load, env.now);
        var record := outbox[slot];
        if !SameDelivery(record, request.text, binding.platform, binding.channelId) {
          return None, steps, effects;
        }
        return Some(record), steps, effects;
      }
      var record := OutboxRecord(
        DeliveryReceipt(request.sessionId, env.deliveryId, request.idempotencyKey, Pending, None, None),
        request.text, binding.platform, binding.channelId, env.providerUuid, None);
      Save(record);
      CallsOfOne(Saved(record));
      steps, effects := [Create(record)], [Saved(record)];
      DidOne(start, Create(record), env.now);
      return Some(record), steps, effects;
    }

    // Tries to get an unconfirmed message delivered.
    method Deliver(unconfirmed: OutboxRecord, env: Environment) returns (record: OutboxRecord)
      modifies this`outbox, this`journal
      ensures record == Delivered(unconfirmed, env)
      ensures outbox == old(outbox)[SlotOf(unconfirmed) := record]
      ensures journal == old(journal) + DeliverEffects(unconfirmed, env)
    {
      record := unconfirmed;
      if UnconfirmedRetryWindowExpired(record, env.now) {
        record := WithState(record, Uncertain, Some(WindowExpired));
        Save(record);
        return;
      }
      if env.anchorError.Some? {
        record := WithState(record, Failed, Some(AnchorUnavailable(env.anchorError.value)));
        Save(record);
        return;
      }
      if env.authError.Some? {
        record := WithState(record, Failed, Some(AuthenticationFailed(env.authError.value)));
        Save(record);
        return;
      }
      if record.firstAttempt.None? {
        record := record.(firstAttempt := Some(env.now));
      }
      record := WithState(record, Sending, None);
      Save(record);
      journal := journal + [Called(record.providerUuid, record.text, record.channelId)];
      match env.outcome {
        case Replied(id) =>
          if id == "" {
            record := WithState(record, Uncertain, Some(NoMessageId));
          } else {
            record := record.(receipt := record.receipt.(platformMessageId := Some(id)));
            record := record.(receipt := record.receipt.(state := Sent));
          }
        case TransportError(message) => record := WithState(record, Uncertain, Some(SendFailed(message)));
        case ProviderError(message) => record := WithState(record, Failed, Some(SendFailed(message)));
        case TimedOut => record := WithState(record, Uncertain, Some(SendTimedOut));
      }
      Save(record);
    }

    // Puts a confirmed message into the chat history and closes the record.
    method Commit(confirmed: OutboxRecord, env: Environment)
      returns (result: SendResult, ghost steps: seq<Step>, ghost effects: seq<Effect>)
      requires SlotOf(confirmed) in outbox && outbox[SlotOf(confirmed)] == confirmed
      modifies this
      ensures journal == old(journal) + effects
      ensures
        var (sessionId, key) := SlotOf(confirmed);
        Did(old(View(sessionId, key)).(progress := Confirmed), steps, env.now, View(sessionId, key), effects)
      ensures CallsIn(effects) == []
      ensures
        var (sessionId, id) := (SlotOf(confirmed).0, confirmed.receipt.deliveryId);
        Ledger(sessionId) == if env.ledgerWritable && id !in old(Ledger(sessionId)) then old(Ledger(sessionId)) + [id]
                             else old(Ledger(sessionId))
      ensures if !env.ledgerWritable then result.Err? && outbox == old(outbox)
              else && result == Ok(WithState(confirmed, Complete, None).receipt)
                   && outbox == old(outbox)[SlotOf(confirmed) := WithState(confirmed, Complete, None)]
      ensures forall other :: other != SlotOf(confirmed).0 ==> Ledger(other) == old(Ledger(other))
    {
      hide Did, EffectOf, ClientEnabled, ClientNext, CallsIn;
      NoCalls();
      var record := confirmed;
      ghost var start := View(SlotOf(record).0, SlotOf(record).1).(progress := Confirmed);
      if !env.ledgerWritable {
        DidStop(start, env.now);
        return Err, [Stop], [];
      }
      effects := CommitIsARun(start, env.now);
      AppendProactiveAssistantMessage(record.receipt.sessionId, record.receipt.deliveryId);
      record := WithState(record, Complete, None);
      Save(record);
      return Ok(record.receipt), [Append] + [Finish], effects;
    }

    // What a call does once its record is loaded.
    method Resume(loadedRecord: OutboxRecord, env: Environment)
      returns (result: SendResult, ghost steps: seq<Step>, ghost effects: seq<Effect>)
      requires SlotOf(loadedRecord) in outbox && outbox[SlotOf(loadedRecord)] == loadedRecord
      modifies this
      ensures journal == old(journal) + effects
      ensures
        var (sessionId, key) := SlotOf(loadedRecord);
        && Did(old(View(sessionId, key)).(progress := Loaded), steps, env.now, View(sessionId, key), effects)
        && Reports(loadedRecord, env, result, effects, old(Ledger(sessionId)), View(sessionId, key))
      ensures
        var slot := SlotOf(loadedRecord);
        slot in outbox && SlotOf(outbox[slot]) == slot && outbox == old(outbox)[slot := outbox[slot]]
      ensures forall other :: other != SlotOf(loadedRecord).0 ==> Ledger(other) == old(Ledger(other))
    {
      hide Did, Delivered, DeliverSteps, DeliverEffects, EffectOf, ClientEnabled, ClientNext, CallsIn;
      var record := loadedRecord;
      ghost var loaded := View(SlotOf(record).0, SlotOf(record).1).(progress := Loaded);
      NoCalls();
      if record.receipt.state == Complete {
        DidStop(loaded, env.now);
        return Ok(record.receipt), [Stop], [];
      }
      if record.receipt.platformMessageId.None? {
        DeliverIsARun(record, env, loaded.history);
        DeliveredReports(record, env);
        steps, effects := DeliverSteps(record, env), DeliverEffects(record, env);
        record := Deliver(record, env);
        if record.receipt.state != Sent {
          return Ok(record.receipt), steps, effects;
        }
      } else {
        DidAlreadyConfirmed(loaded, env.now);
        steps, effects := [AlreadyConfirmed], [];
      }
      ghost var confirmed := View(SlotOf(record).0, SlotOf(record).1).(progress := Confirmed);
      ghost var more, moreEffects;
      result, more, moreEffects := Commit(record, env);
      CallsConcat(effects, moreEffects);
      DidThen(loaded, steps, confirmed, effects, more, View(SlotOf(record).0, SlotOf(record).1), moreEffects, env.now);
      steps, effects := steps + more, effects + moreEffects;
    }

    // Everything a call does outside, in the order in which it does it, is a run of
    // client steps on its record; so wherever the process stops, it has done a prefix
    // of one. It reports as promised, and other deliveries are untouched.
    method Send(request: Request, env: Environment)
      returns (result: SendResult, ghost steps: seq<Step>, ghost effects: seq<Effect>)
      requires Valid()
      requires env.deliveryId !in Ledger(request.sessionId)   // a fresh UUID
      modifies this
      ensures Valid() && journal == old(journal) + effects
      ensures Did(old(View(request.sessionId, request.idempotencyKey)), steps, env.now,
                  View(request.sessionId, request.idempotencyKey), effects)
      ensures
        var known := old(View(request.sessionId, request.idempotencyKey)).disk;
        if TurnedAway(known, request, env) then
          result == Err && effects == [] && outbox == old(outbox) && Ledger(request.sessionId) == old(Ledger(request.sessionId))
        else
          Reports(WorksOn(known, request, env), env, result, effects, old(Ledger(request.sessionId)),
                  View(request.sessionId, request.idempotencyKey))
      ensures
        var slot := (request.sessionId, request.idempotencyKey);
        outbox == old(outbox) || (slot in outbox && outbox == old(outbox)[slot := outbox[slot]])
      ensures forall other :: other != request.sessionId ==> Ledger(other) == old(Ledger(other))
    {
      hide Did, FreshRecord, Reports, CallsIn;
      ghost var start := View(request.sessionId, request.idempotencyKey);
      DidNothing(start, env.now);
      if !env.requestAccepted || env.session.None? || !env.gatewayConfigured {
        return Err, [], [];
      }
      var found;
      found, steps, effects := Open(request, env.session.value, env);
      if found.None? {
        return Err, [], effects;
      }
      ghost var loaded := View(request.sessionId, request.idempotencyKey).(progress := Loaded);
      ghost var more, moreEffects;
      result, more, moreEffects := Resume(found.value, env);
      DidThen(start, steps, loaded, effects, more, View(request.sessionId, request.idempotencyKey), moreEffects, env.now);
      MoreReports(found.value, env, result, effects, moreEffects, loaded.history,
                  View(request.sessionId, request.idempotencyKey));
      steps, effects := steps + more, effects + moreEffects;
    }
  }

  lemma MoreReports(record: OutboxRecord, env: Environment, result: SendResult, effects: seq<Effect>, more: seq<Effect>,
                    history: seq<string>, after: Client)
    requires CallsIn(effects) == [] && Reports(record, env, result, more, history, after)
    ensures Reports(record, env, result, effects + more, history, after)
  {
    CallsConcat(effects, more);
  }

  lemma DidStop(client: Client, now: nat)
    ensures Did(client, [Stop], now, client.(progress := Idle), [])
  {
    hide Did;
    DidOne(client, Stop, now);
  }

  lemma {:induction false} CommitIsARun(start: Client, now: nat) returns (effects: seq<Effect>)
    requires start.progress == Confirmed && start.disk.Some?
    ensures
      var record := start.disk.value;
      var id := record.receipt.deliveryId;
      var closed := WithState(record, Complete, None);
      && effects == (if id in start.history then [] else [Logged(id)]) + [Saved(closed)]
      && CallsIn(effects) == []
      && Did(start, [Append] + [Finish], now,
             Client(Some(closed), Idle, if id in start.history then start.history else start.history + [id]), effects)
  {
    hide Did;
    var appended := ClientNext(start, Append, now);
    var end := ClientNext(appended, Finish, now);
    DidOne(start, Append, now);
    DidOne(appended, Finish, now);
    DidThen(start, [Append], appended, EffectOf(start, Append, appended),
            [Finish], end, EffectOf(appended, Finish, end), now);
    effects := EffectOf(start, Append, appended) + EffectOf(appended, Finish, end);
    CallsConcat(EffectOf(start, Append, appended), EffectOf(appended, Finish, end));
    CallsOfOne(Logged(start.disk.value.receipt.deliveryId));
    CallsOfOne(Saved(end.disk.value));
  }

  lemma NoCalls()
    ensures CallsIn([]) == []
  {
  }

  lemma DidAlreadyConfirmed(client: Client, now: nat)
    requires client.progress == Loaded && client.disk.Some?
    requires client.disk.value.receipt.state != Complete && client.disk.value.receipt.platformMessageId.Some?
    ensures Did(client, [AlreadyConfirmed], now, client.(progress := Confirmed), [])
  {
    hide Did;
    DidOne(client, AlreadyConfirmed, now);
  }
}
