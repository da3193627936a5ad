/** Replay of a child conversation (`src/sub_session.rs`).

A child conversation is stored twice: as mirrored chat history and as an event
log. `MergeHistoryWithEvents` shows the richer events in place of the turns they
were mirrored into. This file models the projection of events to messages, the
mirroring done while recording, and the merge, and proves that the merge loses
and duplicates nothing (conservation), that its greedy search finds a place for
every run whenever one exists (completeness), and that replaying a mirrored
conversation shows exactly the text of its history.
*/
module SubSession {
  import opened Text

  // JSON payloads are reduced to the fields the projection reads.
  datatype ProtocolEvent =
    | RunStart(input: Option<string>)
    | Delta(content: string)
    | Custom(eventType: string, finalOutput: Option<string>)
    | Error(message: string)
    | Cancelled
    | Other(kind: string)

  datatype SubSessionEvent = SubSessionEvent(
    threadId: string, runId: string, agentName: string, title: Option<string>, event: ProtocolEvent)

  datatype HistoryMessage = HistoryMessage(id: string, role: string, text: string)

  datatype HistoryReplayItem = Message(message: HistoryMessage) | Event(event: SubSessionEvent)

  // What a reader sees of a message.
  datatype Part = Part(role: string, text: string)

  type RunKey = (string, string)

  const USER := "user"
  const ASSISTANT := "assistant"
  const SUB_SESSION_DONE := "sub_session_done"

  // ---------------------------------------------------------------------------
  // Coalescing adjacent messages of one role
  // ---------------------------------------------------------------------------

  function Push(parts: seq<Part>, part: Part): seq<Part> {
    var n := |parts|;
    if n > 0 && parts[n - 1].role == part.role
    then parts[..n - 1] + [Part(part.role, parts[n - 1].text + part.text)]
    else parts + [part]
  }

  function PushAll(parts: seq<Part>, more: seq<Part>): seq<Part> {
    if more == [] then parts else Push(PushAll(parts, more[..|more| - 1]), more[|more| - 1])
  }

  function Coalesce(parts: seq<Part>): seq<Part> {
    PushAll([], parts)
  }

  lemma {:induction false} PushAllConcat(parts: seq<Part>, a: seq<Part>, b: seq<Part>)
    ensures PushAll(parts, a + b) == PushAll(PushAll(parts, a), b)
  {
    if b == [] {
      assert a + b == a;
    } else {
      var front := b[..|b| - 1];
      assert (a + b)[..|a + b| - 1] == a + front;
      PushAllConcat(parts, a, front);
    }
  }

  lemma PushSplit(parts: seq<Part>, role: string, t: string, u: string)
    ensures Push(Push(parts, Part(role, t)), Part(role, u)) == Push(parts, Part(role, t + u))
  {
    var n := |parts|;
    if n > 0 && parts[n - 1].role == role {
      assert parts[n - 1].text + (t + u) == parts[n - 1].text + t + u;
    }
  }

  // Appending messages or their coalesced form makes no difference.
  lemma {:induction false} PushAllCoalesced(parts: seq<Part>, more: seq<Part>)
    ensures PushAll(parts, Coalesce(more)) == PushAll(parts, more)
  {
    if more != [] {
      var front, last := more[..|more| - 1], more[|more| - 1];
      var c := Coalesce(front);
      PushAllCoalesced(parts, front);
      if c != [] && c[|c| - 1].role == last.role {
        var tail := c[|c| - 1];
        assert c == c[..|c| - 1] + [tail];
        PushSplit(PushAll(parts, c[..|c| - 1]), last.role, tail.text, last.text);
        var merged := Part(last.role, tail.text + last.text);
        assert Coalesce(more) == c[..|c| - 1] + [merged];
        assert (c[..|c| - 1] + [merged])[..|c| - 1] == c[..|c| - 1];
      } else {
        assert Coalesce(more)[..|c|] == c;
      }
    }
  }

  lemma SameCoalescedSameEffect(parts: seq<Part>, a: seq<Part>, b: seq<Part>)
    requires Coalesce(a) == Coalesce(b)
    ensures PushAll(parts, a) == PushAll(parts, b)
  {
    PushAllCoalesced(parts, a);
    PushAllCoalesced(parts, b);
  }

  // ---------------------------------------------------------------------------
  // Events to messages
  // ---------------------------------------------------------------------------

  function RunInput(input: Option<string>): Option<string> {
    if input.Some? && Trim(input.value) != "" then input else None
  }

  function HistoryMessages(event: SubSessionEvent): seq<Part> {
    match event.event
    case RunStart(input) =>
      var text := match RunInput(input)
        case Some(text) => text
        case None =>
          match event.title
          case Some(title) => title
          case None => "Sub-session started: " + event.agentName + " / " + event.threadId;
      [Part(USER, text)]
    case Delta(content) => if content != "" then [Part(ASSISTANT, content)] else []
    case Custom(eventType, finalOutput) =>
      if eventType == SUB_SESSION_DONE && finalOutput.Some? && Trim(finalOutput.value) != ""
      then [Part(ASSISTANT, finalOutput.value)] else []
    case Error(message) => [Part(ASSISTANT, "Error: " + message)]
    case Cancelled => [Part(ASSISTANT, "Error: cancelled")]
    case Other(_) => []
  }

  function DeltaText(event: SubSessionEvent): string {
    if event.event.Delta? then event.event.content else ""
  }

  function Streamed(events: seq<SubSessionEvent>): string {
    if events == [] then "" else Streamed(events[..|events| - 1]) + DeltaText(events[|events| - 1])
  }

  // A final output that only repeats what was streamed before it is not shown again.
  predicate RepeatsStream(streamed: string, event: SubSessionEvent) {
    && event.event.Custom? && event.event.eventType == SUB_SESSION_DONE
    && streamed != ""
    && event.event.finalOutput.Some?
    && Trim(event.event.finalOutput.value) == Trim(streamed)
  }

  function EventMessages(earlier: seq<SubSessionEvent>, event: SubSessionEvent): seq<Part> {
    if RepeatsStream(Streamed(earlier), event) then [] else HistoryMessages(event)
  }

  function RunMessages(run: seq<SubSessionEvent>): seq<Part> {
    if run == [] then []
    else
      var front := run[..|run| - 1];
      RunMessages(front) + EventMessages(front, run[|run| - 1])
  }

  function Projected(run: seq<SubSessionEvent>): seq<Part> {
    Coalesce(RunMessages(run))
  }

  method ProjectRun(run: seq<SubSessionEvent>) returns (projected: seq<Part>)
    ensures projected == Projected(run)
  {
    hide Push, Trim, HistoryMessages;
    projected := [];
    var streamed := "";
    for i := 0 to |run|
      invariant streamed == Streamed(run[..i])
      invariant projected == Projected(run[..i])
    {
      var event := run[i];
      assert run[..i + 1][..i] == run[..i];
      ghost var earlier := streamed;
      if event.event.Delta? {
        streamed := streamed + event.event.content;
      }
      PushAllConcat([], RunMessages(run[..i]), EventMessages(run[..i], event));
      if event.event.Custom? && event.event.eventType == SUB_SESSION_DONE && streamed != ""
         && event.event.finalOutput.Some? && Trim(event.event.finalOutput.value) == Trim(streamed)
      {
        continue;
      }
      var messages := HistoryMessages(event);
      ghost var before := projected;
      for k := 0 to |messages|
        invariant projected == PushAll(before, messages[..k])
      {
        assert messages[..k + 1][..k] == messages[..k];
        projected := Push(projected, messages[k]);
      }
      assert messages[..|messages|] == messages;
    }
    assert run[..|run|] == run;
  }

  // ---------------------------------------------------------------------------
  // Grouping events into runs
  // ---------------------------------------------------------------------------

  function Key(event: SubSessionEvent): RunKey {
    (event.threadId, event.runId)
  }

  function SameRun(events: seq<SubSessionEvent>, key: RunKey): seq<SubSessionEvent> {
    if events == [] then []
    else
      var front, last := events[..|events| - 1], events[|events| - 1];
      if Key(last) == key then SameRun(front, key) + [last] else SameRun(front, key)
  }

  // Run keys in order of first appearance.
  function RunKeys(events: seq<SubSessionEvent>): (keys: seq<RunKey>)
    ensures forall i, j :: 0 <= i < j < |keys| ==> keys[i] != keys[j]
  {
    if events == [] then []
    else
      var front, last := events[..|events| - 1], events[|events| - 1];
      var keys := RunKeys(front);
      if Key(last) in keys then keys else keys + [Key(last)]
  }

  function RunsOf(events: seq<SubSessionEvent>, keys: seq<RunKey>): (runs: seq<seq<SubSessionEvent>>)
    ensures |runs| == |keys|
    ensures forall i :: 0 <= i < |keys| ==> runs[i] == SameRun(events, keys[i])
  {
    seq(|keys|, i requires 0 <= i < |keys| => SameRun(events, keys[i]))
  }

  function Runs(events: seq<SubSessionEvent>): seq<seq<SubSessionEvent>> {
    RunsOf(events, RunKeys(events))
  }

  // One more event extends its own run, or opens a new one at the end.
  lemma RunsSnoc(events: seq<SubSessionEvent>, event: SubSessionEvent, index: nat)
    requires index <= |RunKeys(events)|
    requires if index < |RunKeys(events)| then RunKeys(events)[index] == Key(event) else Key(event) !in RunKeys(events)
    ensures index < |RunKeys(events)| ==>
      && RunKeys(events + [event]) == RunKeys(events)
      && Runs(events + [event]) == Runs(events)[index := Runs(events)[index] + [event]]
    ensures index == |RunKeys(events)| ==>
      && RunKeys(events + [event]) == RunKeys(events) + [Key(event)]
      && Runs(events + [event]) == Runs(events) + [[event]]
  {
    assert (events + [event])[..|events|] == events;
    var keys, after := RunKeys(events), Runs(events + [event]);
    if index == |keys| {
      NoEventsOfRun(events, Key(event));
    }
    forall i | 0 <= i < |keys|
      ensures after[i] == if i == index then Runs(events)[i] + [event] else Runs(events)[i]
    {
      assert keys[i] == Key(event) <==> i == index;
    }
    if index == |keys| {
      assert after[index] == [event];
      assert after == Runs(events) + [[event]];
    }
  }

  ghost predicate Indexes(runIndices: map<RunKey, nat>, keys: seq<RunKey>) {
    && (forall i :: 0 <= i < |keys| ==> keys[i] in runIndices && runIndices[keys[i]] == i)
    && (forall k :: k in runIndices ==> runIndices[k] < |keys| && keys[runIndices[k]] == k)
  }

  method GroupRuns(events: seq<SubSessionEvent>) returns (runs: seq<seq<SubSessionEvent>>)
    ensures runs == Runs(events)
  {
    runs := [];
    var runIndices: map<RunKey, nat> := map[];
    for n := 0 to |events|
      invariant runs == Runs(events[..n])
      invariant Indexes(runIndices, RunKeys(events[..n]))
    {
      runs, runIndices := AddToRun(events[..n], events[n], runs, runIndices);
      assert events[..n + 1] == events[..n] + [events[n]];
    }
    assert events[..|events|] == events;
  }

  method AddToRun(ghost earlier: seq<SubSessionEvent>, event: SubSessionEvent,
                  runs: seq<seq<SubSessionEvent>>, runIndices: map<RunKey, nat>)
    returns (runs': seq<seq<SubSessionEvent>>, runIndices': map<RunKey, nat>)
    requires runs == Runs(earlier) && Indexes(runIndices, RunKeys(earlier))
    ensures runs' == Runs(earlier + [event]) && Indexes(runIndices', RunKeys(earlier + [event]))
  {
    runs', runIndices' := runs, runIndices;
    if Key(event) !in runIndices' {
      runs' := runs' + [[]];
      runIndices' := runIndices'[Key(event) := |runs'| - 1];
    }
    var index := runIndices'[Key(event)];
    runs' := runs'[index := runs'[index] + [event]];
    RunsSnoc(earlier, event, index);
  }

  lemma {:induction false} NoEventsOfRun(events: seq<SubSessionEvent>, key: RunKey)
    requires key !in RunKeys(events)
    ensures SameRun(events, key) == []
  {
    if events != [] {
      NoEventsOfRun(events[..|events| - 1], key);
    }
  }

  // ---------------------------------------------------------------------------
  // Finding the turn a run was mirrored into
  // ---------------------------------------------------------------------------

  function Parts(messages: seq<HistoryMessage>): (parts: seq<Part>)
    ensures |parts| == |messages|
    ensures forall i :: 0 <= i < |parts| ==> parts[i] == Part(messages[i].role, messages[i].text)
  {
    if messages == [] then []
    else
      var last := messages[|messages| - 1];
      Parts(messages[..|messages| - 1]) + [Part(last.role, last.text)]
  }

  // First user message at or after `from`, or the end of the history.
  function NextUser(history: seq<HistoryMessage>, from: nat): (end: nat)
    requires from <= |history|
    ensures from <= end <= |history|
    ensures forall i :: from <= i < end ==> history[i].role != USER
    ensures end < |history| ==> history[end].role == USER
    decreases |history| - from
  {
    if from == |history| || history[from].role == USER then from else NextUser(history, from + 1)
  }

  // End of the whole turn that starts at `start`.
  function TurnEnd(history: seq<HistoryMessage>, start: nat): (end: nat)
    requires start < |history|
    ensures start < end <= |history|
  {
    NextUser(history, start + 1)
  }

  function Turn(history: seq<HistoryMessage>, start: nat): seq<Part>
    requires start < |history|
  {
    Coalesce(Parts(history[start..TurnEnd(history, start)]))
  }

  // The log may have advanced past the snapshot of the active last turn.
  predicate ActivePrefix(actual: seq<Part>, projected: seq<Part>) {
    && |actual| <= |projected|
    && forall i :: 0 <= i < |actual| ==>
        && actual[i].role == projected[i].role
        && if i + 1 == |actual| && actual[i].role == ASSISTANT
           then actual[i].text <= projected[i].text
           else actual[i].text == projected[i].text
  }

  predicate Matches(history: seq<HistoryMessage>, projected: seq<Part>, start: nat)
    requires start < |history|
  {
    && history[start].role == USER
    && projected != [] && projected[0] == Part(USER, history[start].text)
    && (|| Turn(history, start) == projected
        || (TurnEnd(history, start) == |history| && ActivePrefix(Turn(history, start), projected)))
  }

  function FindMatch(history: seq<HistoryMessage>, projected: seq<Part>, cursor: nat): (found: Option<nat>)
    requires cursor <= |history|
    ensures found.Some? ==>
      && cursor <= found.value < |history|
      && Matches(history, projected, found.value)
      && forall i :: cursor <= i < found.value ==> !Matches(history, projected, i)
    ensures found.None? ==> forall i :: cursor <= i < |history| ==> !Matches(history, projected, i)
    decreases |history| - cursor
  {
    if cursor == |history| then None
    else if Matches(history, projected, cursor) then Some(cursor)
    else FindMatch(history, projected, cursor + 1)
  }

  method IsActivePrefix(actual: seq<Part>, projected: seq<Part>) returns (b: bool)
    ensures b == ActivePrefix(actual, projected)
  {
    if |actual| > |projected| {
      return false;
    }
    for i := 0 to |actual|
      invariant forall k :: 0 <= k < i ==>
        && actual[k].role == projected[k].role
        && if k + 1 == |actual| && actual[k].role == ASSISTANT
           then actual[k].text <= projected[k].text
           else actual[k].text == projected[k].text
    {
      var next := projected[i];
      if actual[i].role != next.role {
        return false;
      }
      if i + 1 == |actual| && actual[i].role == ASSISTANT {
        if !(actual[i].text <= next.text) {
          return false;
        }
      } else if actual[i].text != next.text {
        return false;
      }
    }
    return true;
  }

  method CoalesceMessages(messages: seq<HistoryMessage>) returns (actual: seq<Part>)
    ensures actual == Coalesce(Parts(messages))
  {
    hide Push;
    actual := [];
    for i := 0 to |messages|
      invariant actual == Coalesce(Parts(messages[..i]))
    {
      assert Parts(messages[..i + 1])[..i] == Parts(messages[..i]);
      actual := Push(actual, Part(messages[i].role, messages[i].text));
    }
    assert messages[..|messages|] == messages;
  }

  method MatchTurn(history: seq<HistoryMessage>, projected: seq<Part>, cursor: nat)
    returns (found: Option<(nat, nat)>)
    requires cursor <= |history|
    ensures found.Some? <==> FindMatch(history, projected, cursor).Some?
    ensures found.Some? ==>
      && FindMatch(history, projected, cursor) == Some(found.value.0)
      && found.value.1 == TurnEnd(history, found.value.0)
  {
    hide ActivePrefix, NextUser, Parts, Coalesce;
    var start := cursor;
    while start < |history|
      invariant cursor <= start <= |history|
      invariant FindMatch(history, projected, cursor) == FindMatch(history, projected, start)
    {
      if history[start].role != USER || projected == [] || projected[0] != Part(USER, history[start].text) {
        start := start + 1;
        continue;
      }
      var end := NextUser(history, start + 1);
      var actual := CoalesceMessages(history[start..end]);
      var activePrefix := false;
      if end == |history| {
        activePrefix := IsActivePrefix(actual, projected);
      }
      if actual == projected || activePrefix {
        return Some((start, end));
      }
      start := start + 1;
    }
    return None;
  }

  // ---------------------------------------------------------------------------
  // The merge
  // ---------------------------------------------------------------------------

  function AsMessages(messages: seq<HistoryMessage>): (items: seq<HistoryReplayItem>)
    ensures |items| == |messages|
    ensures forall i :: 0 <= i < |items| ==> items[i] == Message(messages[i])
  {
    if messages == [] then []
    else AsMessages(messages[..|messages| - 1]) + [Message(messages[|messages| - 1])]
  }

  function AsEvents(run: seq<SubSessionEvent>): (items: seq<HistoryReplayItem>)
    ensures |items| == |run|
    ensures forall i :: 0 <= i < |items| ==> items[i] == Event(run[i])
  {
    if run == [] then [] else AsEvents(run[..|run| - 1]) + [Event(run[|run| - 1])]
  }

  // Where copying of plain history stops and resumes around a run's turn.
  function CopyUntil(cursor: nat, found: Option<nat>): nat {
    if found.Some? then found.value else cursor
  }

  function ResumeAt(history: seq<HistoryMessage>, cursor: nat, found: Option<nat>): (next: nat)
    requires cursor <= |history| && (found.Some? ==> found.value < |history|)
    ensures next <= |history|
  {
    if found.Some? then TurnEnd(history, found.value) else cursor
  }

  function MergeFrom(history: seq<HistoryMessage>, cursor: nat, runs: seq<seq<SubSessionEvent>>)
    : (items: seq<HistoryReplayItem>)
    requires cursor <= |history|
    decreases |runs|
  {
    if runs == [] then AsMessages(history[cursor..])
    else
      var found := FindMatch(history, Projected(runs[0]), cursor);
      AsMessages(history[cursor..CopyUntil(cursor, found)]) + AsEvents(runs[0])
      + MergeFrom(history, ResumeAt(history, cursor, found), runs[1..])
  }

  function Merge(history: seq<HistoryMessage>, events: seq<SubSessionEvent>): seq<HistoryReplayItem> {
    MergeFrom(history, 0, Runs(events))
  }

  method MergeHistoryWithEvents(history: seq<HistoryMessage>, events: seq<SubSessionEvent>)
    returns (result: seq<HistoryReplayItem>)
    ensures result == Merge(history, events)
  {
    hide FindMatch, Projected, Runs, AsMessages, AsEvents, TurnEnd;
    var runs := GroupRuns(events);
    result := [];
    var cursor := 0;
    for r := 0 to |runs|
      invariant cursor <= |history|
      invariant result + MergeFrom(history, cursor, runs[r..]) == Merge(history, events)
    {
      assert runs[r..][0] == runs[r] && runs[r..][1..] == runs[r + 1..];
      ghost var before, at := result, cursor;
      var projected := ProjectRun(runs[r]);
      var found := MatchTurn(history, projected, cursor);
      if found.Some? {
        var (start, end) := found.value;
        result := result + AsMessages(history[cursor..start]);
        cursor := end;
      } else {
        assert AsMessages(history[cursor..cursor]) == [];
      }
      result := result + AsEvents(runs[r]);
      ghost var match' := FindMatch(history, Projected(runs[r]), at);
      AppendAll(before, AsMessages(history[at..CopyUntil(at, match')]), AsEvents(runs[r]),
                MergeFrom(history, cursor, runs[r + 1..]));
    }
    result := result + AsMessages(history[cursor..]);
  }

  lemma AppendAll<T>(a: seq<T>, b: seq<T>, c: seq<T>, d: seq<T>)
    ensures a + (b + c + d) == a + b + c + d
  {
  }

  // ---------------------------------------------------------------------------
  // The plain-text transcript
  // ---------------------------------------------------------------------------

  function Visible(history: seq<HistoryMessage>): seq<Part> {
    if history == [] then []
    else
      var front, last := Visible(history[..|history| - 1]), history[|history| - 1];
      if last.text == "" then front else front + [Part(last.role, last.text)]
  }

  function Heading(role: string): string {
    if role == USER then "**User**\n" else if role == ASSISTANT then "**Assistant**\n" else "**Tool**\n"
  }

  // What precedes a message: a heading at each change of speaker, set off by a
  // blank line unless it opens the transcript.
  function Lead(previousRole: string, role: string, opens: bool): string {
    if role == previousRole then "" else (if opens then "" else "\n\n") + Heading(role)
  }

  function LastRole(parts: seq<Part>): string {
    if parts == [] then "" else parts[|parts| - 1].role
  }

  function Render(parts: seq<Part>): string {
    if parts == [] then ""
    else
      var front, last := parts[..|parts| - 1], parts[|parts| - 1];
      Render(front) + Lead(LastRole(front), last.role, front == []) + last.text
  }

  lemma SameSpeakerHasNoLead(role: string, opens: bool)
    ensures Lead(role, role, opens) == ""
  {
  }

  lemma RenderPush(parts: seq<Part>, part: Part)
    ensures Render(Push(parts, part)) == Render(parts) + Lead(LastRole(parts), part.role, parts == []) + part.text
    ensures LastRole(Push(parts, part)) == part.role
  {
    hide Lead;
    var n := |parts|;
    if n > 0 && parts[n - 1].role == part.role {
      var front, last := parts[..n - 1], parts[n - 1];
      var merged := Part(part.role, last.text + part.text);
      SameSpeakerHasNoLead(part.role, false);
      assert (front + [merged])[..n - 1] == front;
      var lead := Lead(LastRole(front), last.role, front == []);
      assert Render(front) + lead + last.text + "" + part.text == Render(front) + lead + (last.text + part.text);
    } else {
      assert (parts + [part])[..n] == parts;
    }
  }

  // The message goes on, or a new speaker gets a heading, after a blank line if it is
  // not the first.
  ghost function Continuation(previous: string, opens: bool, part: Part): string {
    if part.role == previous then part.text
    else if part.role == "user" then (if opens then "" else "\n\n") + "**User**\n" + part.text
    else if part.role == "assistant" then (if opens then "" else "\n\n") + "**Assistant**\n" + part.text
    else (if opens then "" else "\n\n") + "**Tool**\n" + part.text
  }

  lemma LeadContinues(previous: string, opens: bool, part: Part)
    ensures Lead(previous, part.role, opens) + part.text == Continuation(previous, opens, part)
  {
  }

  lemma {:induction false} RenderContinues(parts: seq<Part>, part: Part)
    ensures Render(Push(parts, part))
         == Render(parts) + Continuation(if parts == [] then "" else parts[|parts| - 1].role, parts == [], part)
  {
    hide Render, Push, Lead, Continuation;
    RenderPush(parts, part);
    LeadContinues(LastRole(parts), parts == [], part);
    var lead := Lead(LastRole(parts), part.role, parts == []);
    assert Render(parts) + lead + part.text == Render(parts) + (lead + part.text);
  }

  method PushHeading(text: string, previousRole: string, role: string) returns (text': string)
    ensures text' == text + Lead(previousRole, role, text == "")
  {
    text' := text;
    if role != previousRole {
      if text' != "" {
        text' := text' + "\n\n";
      }
      text' := text' + Heading(role);
    }
  }

  lemma {:induction false} VisibleAreSelected(history: seq<HistoryMessage>)
    ensures Selected(history, Visible(history),
      (message: HistoryMessage) => if message.text == "" then None else Some(Part(message.role, message.text)))
  {
    var image := (message: HistoryMessage) => if message.text == "" then None else Some(Part(message.role, message.text));
    if history == [] {
      SelectedNothing(image);
    } else {
      VisibleAreSelected(history[..|history| - 1]);
      SelectedSnoc(history, Visible(history[..|history| - 1]), image);
    }
  }

  // The transcript shows the visible messages, one heading for each change of speaker.
  method Transcript(history: seq<HistoryMessage>) returns (text: string)
    ensures text == Render(Coalesce(Visible(history)))
  {
    hide Render, Push, Lead;
    text := "";
    var previousRole := "";
    ghost var parts: seq<Part> := [];
    RenderNothing();
    for i := 0 to |history|
      invariant parts == Coalesce(Visible(history[..i]))
      invariant previousRole == LastRole(parts)
      invariant text == Render(parts) && (text == "" <==> parts == [])
    {
      var message := history[i];
      assert history[..i + 1][..i] == history[..i];
      if message.text == "" {
        continue;
      }
      ghost var part, visible := Part(message.role, message.text), Visible(history[..i]);
      assert (visible + [part])[..|visible|] == visible;
      RenderPush(parts, part);
      text := PushHeading(text, previousRole, message.role);
      previousRole := message.role;
      text := text + message.text;
      parts := Push(parts, part);
      PushIsNonempty(visible, part);
    }
    assert history[..|history|] == history;
  }

  lemma RenderNothing()
    ensures Render([]) == ""
  {
  }

  lemma PushIsNonempty(parts: seq<Part>, part: Part)
    ensures Push(Coalesce(parts), part) != []
  {
  }
}
