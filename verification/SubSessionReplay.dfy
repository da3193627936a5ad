/** What the replay of a child conversation guarantees (`src/sub_session.rs`).

All statements are about `SubSession.Merge`, which `MergeHistoryWithEvents`
computes, for every history and every event log.
*/
module SubSessionReplay {
  import opened Text
  import opened SubSession

  // ---------------------------------------------------------------------------
  // Recording: messages mirrored into history while the log grows
  // ---------------------------------------------------------------------------

  // Text streamed so far under one run id, read back from the log file.
  function StreamedByRunId(log: seq<SubSessionEvent>, runId: string): string {
    if log == [] then ""
    else
      var front, last := log[..|log| - 1], log[|log| - 1];
      if last.runId == runId then StreamedByRunId(front, runId) + DeltaText(last) else StreamedByRunId(front, runId)
  }

  // The messages mirrored for `event` when the log already holds `log`.
  function HistoryMessagesForRun(log: seq<SubSessionEvent>, event: SubSessionEvent): seq<Part> {
    if RepeatsStream(StreamedByRunId(log, event.runId), event) then [] else HistoryMessages(event)
  }

  // Everything mirrored for one run while `log` was recorded.
  function Mirrored(log: seq<SubSessionEvent>, key: RunKey): seq<Part> {
    if log == [] then []
    else
      var front, last := log[..|log| - 1], log[|log| - 1];
      if Key(last) == key then Mirrored(front, key) + HistoryMessagesForRun(front, last) else Mirrored(front, key)
  }

  // A log file belongs to one child thread.
  predicate OneThreadPerRunId(log: seq<SubSessionEvent>) {
    forall i, j :: 0 <= i < |log| && 0 <= j < |log| && log[i].runId == log[j].runId
      ==> log[i].threadId == log[j].threadId
  }

  lemma {:induction false} StreamedAgrees(log: seq<SubSessionEvent>, key: RunKey)
    requires forall i :: 0 <= i < |log| && log[i].runId == key.1 ==> log[i].threadId == key.0
    ensures StreamedByRunId(log, key.1) == Streamed(SameRun(log, key))
  {
    if log != [] {
      var front, last := log[..|log| - 1], log[|log| - 1];
      assert log[|log| - 1] == last;
      StreamedAgrees(front, key);
      assert (SameRun(front, key) + [last])[..|SameRun(front, key)|] == SameRun(front, key);
    }
  }

  // The projection the merge computes from a run's events is what recording
  // mirrored for that run, although recording consults the log file by run id alone.
  lemma {:induction false} ProjectionIsMirrored(log: seq<SubSessionEvent>, key: RunKey)
    requires OneThreadPerRunId(log)
    ensures RunMessages(SameRun(log, key)) == Mirrored(log, key)
    ensures Projected(SameRun(log, key)) == Coalesce(Mirrored(log, key))
  {
    if log != [] {
      var front, last := log[..|log| - 1], log[|log| - 1];
      ProjectionIsMirrored(front, key);
      if Key(last) == key {
        assert log[|log| - 1] == last;
        StreamedAgrees(front, key);
        assert (SameRun(front, key) + [last])[..|SameRun(front, key)|] == SameRun(front, key);
      }
    }
  }

  // ---------------------------------------------------------------------------
  // Conservation
  // ---------------------------------------------------------------------------

  // Start of the turn each run replaced, if any.
  function Cuts(history: seq<HistoryMessage>, cursor: nat, runs: seq<seq<SubSessionEvent>>): (cuts: seq<Option<nat>>)
    requires cursor <= |history|
    ensures |cuts| == |runs|
    decreases |runs|
  {
    if runs == [] then []
    else
      var found := FindMatch(history, Projected(runs[0]), cursor);
      [found] + Cuts(history, ResumeAt(history, cursor, found), runs[1..])
  }

  ghost predicate ValidCuts(
    history: seq<HistoryMessage>, cursor: nat, runs: seq<seq<SubSessionEvent>>, cuts: seq<Option<nat>>)
  {
    && |cuts| == |runs|
    && (forall r :: 0 <= r < |cuts| && cuts[r].Some? ==>
          && cursor <= cuts[r].value < |history|
          && Matches(history, Projected(runs[r]), cuts[r].value))
    && (forall q, r :: 0 <= q < r < |cuts| && cuts[q].Some? && cuts[r].Some? ==>
          TurnEnd(history, cuts[q].value) <= cuts[r].value)
  }

  // Removed turns are whole, disjoint, in order, and each is its run's projection
  // (or, for the final turn, a prefix of it).
  lemma {:induction false} CutsAreValid(history: seq<HistoryMessage>, cursor: nat, runs: seq<seq<SubSessionEvent>>)
    requires cursor <= |history|
    ensures ValidCuts(history, cursor, runs, Cuts(history, cursor, runs))
    decreases |runs|
  {
    if runs != [] {
      var found := FindMatch(history, Projected(runs[0]), cursor);
      var next := ResumeAt(history, cursor, found);
      CutsAreValid(history, next, runs[1..]);
      var cuts, rest := Cuts(history, cursor, runs), Cuts(history, next, runs[1..]);
      assert forall r :: 0 < r < |cuts| ==> cuts[r] == rest[r - 1] && runs[r] == runs[1..][r - 1];
    }
  }

  ghost predicate Removed(history: seq<HistoryMessage>, cuts: seq<Option<nat>>, i: nat) {
    exists r :: 0 <= r < |cuts| && cuts[r].Some? && cuts[r].value < |history|
             && cuts[r].value <= i < TurnEnd(history, cuts[r].value)
  }

  // The messages at or after `from` that no run replaced, in order.
  ghost function Kept(history: seq<HistoryMessage>, cuts: seq<Option<nat>>, from: nat): seq<HistoryMessage>
    requires from <= |history|
    decreases |history| - from
  {
    if from == |history| then []
    else if Removed(history, cuts, from) then Kept(history, cuts, from + 1)
    else [history[from]] + Kept(history, cuts, from + 1)
  }

  lemma {:induction false} KeptStretch(history: seq<HistoryMessage>, cuts: seq<Option<nat>>, from: nat, upTo: nat)
    requires from <= upTo <= |history|
    requires forall i :: from <= i < upTo ==> !Removed(history, cuts, i)
    ensures Kept(history, cuts, from) == history[from..upTo] + Kept(history, cuts, upTo)
    decreases upTo - from
  {
    hide Removed;
    if from < upTo {
      KeptStretch(history, cuts, from + 1, upTo);
      var first, more, rest := [history[from]], history[from + 1..upTo], Kept(history, cuts, upTo);
      assert Kept(history, cuts, from) == first + (more + rest);
      assert history[from..upTo] == first + more;
      assert first + (more + rest) == first + more + rest;
    } else {
      assert history[from..upTo] == [];
    }
  }

  lemma {:induction false} KeptHole(history: seq<HistoryMessage>, cuts: seq<Option<nat>>, from: nat, upTo: nat)
    requires from <= upTo <= |history|
    requires forall i :: from <= i < upTo ==> Removed(history, cuts, i)
    ensures Kept(history, cuts, from) == Kept(history, cuts, upTo)
    decreases upTo - from
  {
    hide Removed;
    if from < upTo {
      KeptHole(history, cuts, from + 1, upTo);
    }
  }

  lemma {:induction false} KeptCongruence(
    history: seq<HistoryMessage>, cuts: seq<Option<nat>>, cuts': seq<Option<nat>>, from: nat)
    requires from <= |history|
    requires forall i :: from <= i < |history| ==> (Removed(history, cuts, i) <==> Removed(history, cuts', i))
    ensures Kept(history, cuts, from) == Kept(history, cuts', from)
    decreases |history| - from
  {
    hide Removed;
    if from < |history| {
      KeptCongruence(history, cuts, cuts', from + 1);
    }
  }

  function MessagesOf(items: seq<HistoryReplayItem>): seq<HistoryMessage> {
    if items == [] then []
    else
      var front, last := MessagesOf(items[..|items| - 1]), items[|items| - 1];
      if last.Message? then front + [last.message] else front
  }

  function EventsOf(items: seq<HistoryReplayItem>): seq<SubSessionEvent> {
    if items == [] then []
    else
      var front, last := EventsOf(items[..|items| - 1]), items[|items| - 1];
      if last.Event? then front + [last.event] else front
  }

  lemma {:induction false} OfConcat(a: seq<HistoryReplayItem>, b: seq<HistoryReplayItem>)
    ensures MessagesOf(a + b) == MessagesOf(a) + MessagesOf(b)
    ensures EventsOf(a + b) == EventsOf(a) + EventsOf(b)
  {
    if b == [] {
      assert a + b == a;
    } else {
      assert (a + b)[..|a + b| - 1] == a + b[..|b| - 1];
      OfConcat(a, b[..|b| - 1]);
    }
  }

  lemma {:induction false} OfMessages(messages: seq<HistoryMessage>)
    ensures MessagesOf(AsMessages(messages)) == messages
    ensures EventsOf(AsMessages(messages)) == []
  {
    if messages != [] {
      var n := |messages| - 1;
      assert AsMessages(messages)[..n] == AsMessages(messages[..n]);
      OfMessages(messages[..n]);
    }
  }

  lemma {:induction false} OfEvents(run: seq<SubSessionEvent>)
    ensures EventsOf(AsEvents(run)) == run
    ensures MessagesOf(AsEvents(run)) == []
  {
    if run != [] {
      var n := |run| - 1;
      assert AsEvents(run)[..n] == AsEvents(run[..n]);
      OfEvents(run[..n]);
    }
  }

  function Flatten(runs: seq<seq<SubSessionEvent>>): seq<SubSessionEvent> {
    if runs == [] then [] else runs[0] + Flatten(runs[1..])
  }

  lemma OfBlock(messages: seq<HistoryMessage>, run: seq<SubSessionEvent>, rest: seq<HistoryReplayItem>)
    ensures EventsOf(AsMessages(messages) + AsEvents(run) + rest) == run + EventsOf(rest)
    ensures MessagesOf(AsMessages(messages) + AsEvents(run) + rest) == messages + MessagesOf(rest)
  {
    hide *;
    var head, block := AsMessages(messages), AsEvents(run);
    OfConcat(head + block, rest);
    OfConcat(head, block);
    OfMessages(messages);
    OfEvents(run);
  }

  lemma {:induction false} MergeFromConserves(history: seq<HistoryMessage>, cursor: nat, runs: seq<seq<SubSessionEvent>>)
    requires cursor <= |history|
    ensures EventsOf(MergeFrom(history, cursor, runs)) == Flatten(runs)
    ensures MessagesOf(MergeFrom(history, cursor, runs)) == Kept(history, Cuts(history, cursor, runs), cursor)
    decreases |runs|
  {
    if runs == [] {
      OfMessages(history[cursor..]);
      KeptStretch(history, [], cursor, |history|);
    } else {
      var found := FindMatch(history, Projected(runs[0]), cursor);
      var next := ResumeAt(history, cursor, found);
      MergeFromConserves(history, next, runs[1..]);
      OfBlock(history[cursor..CopyUntil(cursor, found)], runs[0], MergeFrom(history, next, runs[1..]));
      KeptAroundCut(history, cursor, found, Cuts(history, next, runs[1..]), runs[1..]);
    }
  }

  lemma KeptAroundCut(history: seq<HistoryMessage>, cursor: nat, found: Option<nat>,
                      rest: seq<Option<nat>>, runs: seq<seq<SubSessionEvent>>)
    requires cursor <= |history|
    requires found.Some? ==> cursor <= found.value < |history|
    requires rest == Cuts(history, ResumeAt(history, cursor, found), runs)
    ensures
      var start := CopyUntil(cursor, found);
      var next := ResumeAt(history, cursor, found);
      Kept(history, [found] + rest, cursor) == history[cursor..start] + Kept(history, rest, next)
  {
    hide Kept, Cuts, Matches, Projected, FindMatch, TurnEnd;
    var start := CopyUntil(cursor, found);
    var next := ResumeAt(history, cursor, found);
    var cuts := [found] + rest;
    CutsAreValid(history, next, runs);
    forall i: nat | i < |history|
      ensures Removed(history, cuts, i) <==> start <= i < next || Removed(history, rest, i)
    {
      if Removed(history, rest, i) {
        var r :| 0 <= r < |rest| && rest[r].Some? && rest[r].value <= i < TurnEnd(history, rest[r].value);
        assert cuts[r + 1] == rest[r];
      }
      if start <= i < next {
        assert cuts[0] == found;
      }
    }
    KeptStretch(history, cuts, cursor, start);
    KeptHole(history, cuts, start, next);
    KeptCongruence(history, cuts, rest, next);
  }

  // Every run stays together, after the runs that appeared before it.
  lemma {:induction false} EachRunIsABlock(history: seq<HistoryMessage>, cursor: nat,
                                           runs: seq<seq<SubSessionEvent>>, r: nat)
    returns (before: seq<HistoryReplayItem>, after: seq<HistoryReplayItem>)
    requires cursor <= |history| && r < |runs|
    ensures MergeFrom(history, cursor, runs) == before + AsEvents(runs[r]) + after
    ensures EventsOf(before) == Flatten(runs[..r])
    decreases |runs|
  {
    var found := FindMatch(history, Projected(runs[0]), cursor);
    var next := ResumeAt(history, cursor, found);
    var messages := history[cursor..CopyUntil(cursor, found)];
    if r == 0 {
      before, after := AsMessages(messages), MergeFrom(history, next, runs[1..]);
      OfMessages(messages);
    } else {
      var before', after' := EachRunIsABlock(history, next, runs[1..], r - 1);
      var block := AsMessages(messages) + AsEvents(runs[0]);
      before, after := block + before', after';
      AppendAll(block, before', AsEvents(runs[r]), after);
      OfBlock(messages, runs[0], before');
      assert runs[..r][0] == runs[0] && runs[..r][1..] == runs[1..][..r - 1];
    }
  }

  lemma {:induction false} SameRunConcat(a: seq<SubSessionEvent>, b: seq<SubSessionEvent>, key: RunKey)
    ensures SameRun(a + b, key) == SameRun(a, key) + SameRun(b, key)
  {
    if b == [] {
      assert a + b == a;
    } else {
      assert (a + b)[..|a + b| - 1] == a + b[..|b| - 1];
      SameRunConcat(a, b[..|b| - 1], key);
    }
  }

  lemma {:induction false} SameRunOfSameRun(events: seq<SubSessionEvent>, key: RunKey, other: RunKey)
    ensures SameRun(SameRun(events, key), other) == if other == key then SameRun(events, key) else []
  {
    if events != [] {
      var front, last := events[..|events| - 1], events[|events| - 1];
      SameRunOfSameRun(front, key, other);
      SameRunConcat(SameRun(front, key), if Key(last) == key then [last] else [], other);
      assert [last][..0] == [];
    }
  }

  // Regrouping keeps every run's events, each once and in log order.
  lemma {:induction false} FlattenKeepsRuns(events: seq<SubSessionEvent>, keys: seq<RunKey>, key: RunKey)
    requires forall i, j :: 0 <= i < j < |keys| ==> keys[i] != keys[j]
    ensures SameRun(Flatten(RunsOf(events, keys)), key) == if key in keys then SameRun(events, key) else []
  {
    if keys != [] {
      FlattenKeepsRuns(events, keys[1..], key);
      assert RunsOf(events, keys)[1..] == RunsOf(events, keys[1..]);
      SameRunConcat(SameRun(events, keys[0]), Flatten(RunsOf(events, keys[1..])), key);
      SameRunOfSameRun(events, keys[0], key);
    }
  }

  lemma {:induction false} CountByRun(events: seq<SubSessionEvent>, event: SubSessionEvent)
    ensures multiset(events)[event] == multiset(SameRun(events, Key(event)))[event]
  {
    if events != [] {
      var front, last := events[..|events| - 1], events[|events| - 1];
      assert events == front + [last];
      CountByRun(front, event);
    }
  }

  // Conservation. The output is every event once, in blocks of whole runs in order
  // of first appearance, and the history in order minus the removed turns.
  lemma MergeConserves(history: seq<HistoryMessage>, events: seq<SubSessionEvent>)
    ensures
      var out, cuts := Merge(history, events), Cuts(history, 0, Runs(events));
      && multiset(EventsOf(out)) == multiset(events)
      && (forall key :: SameRun(EventsOf(out), key) == SameRun(events, key))
      && EventsOf(out) == Flatten(Runs(events))
      && ValidCuts(history, 0, Runs(events), cuts)
      && MessagesOf(out) == Kept(history, cuts, 0)
  {
    hide MergeFrom, Cuts, ValidCuts, Kept, EventsOf, MessagesOf, SameRun, Flatten, RunKeys;
    MergeFromConserves(history, 0, Runs(events));
    CutsAreValid(history, 0, Runs(events));
    var regrouped := Flatten(Runs(events));
    forall key ensures SameRun(regrouped, key) == SameRun(events, key) {
      FlattenKeepsRuns(events, RunKeys(events), key);
      if key !in RunKeys(events) {
        NoEventsOfRun(events, key);
      }
    }
    forall event ensures multiset(regrouped)[event] == multiset(events)[event] {
      CountByRun(events, event);
      CountByRun(regrouped, event);
    }
  }

  // ---------------------------------------------------------------------------
  // Completeness of the greedy search
  // ---------------------------------------------------------------------------

  // One turn per run, in order, each of which the merge would accept for that run.
  ghost predicate Embedding(
    history: seq<HistoryMessage>, cursor: nat, runs: seq<seq<SubSessionEvent>>, turns: seq<nat>)
  {
    && |turns| == |runs|
    && (forall r :: 0 <= r < |turns| ==>
          cursor <= turns[r] < |history| && Matches(history, Projected(runs[r]), turns[r]))
    && (forall q, r :: 0 <= q < r < |turns| ==> turns[q] < turns[r])
  }

  ghost predicate AllMatched(cuts: seq<Option<nat>>) {
    forall r :: 0 <= r < |cuts| ==> cuts[r].Some?
  }

  lemma {:induction false} GreedyIsLeftmost(
    history: seq<HistoryMessage>, cursor: nat, runs: seq<seq<SubSessionEvent>>, turns: seq<nat>)
    requires cursor <= |history|
    requires Embedding(history, cursor, runs, turns)
    ensures
      var cuts := Cuts(history, cursor, runs);
      AllMatched(cuts) && forall r :: 0 <= r < |cuts| ==> cuts[r].value <= turns[r]
    decreases |runs|
  {
    hide FindMatch, Projected, Turn, ActivePrefix, NextUser;
    if runs != [] {
      var found := FindMatch(history, Projected(runs[0]), cursor);
      assert Matches(history, Projected(runs[0]), turns[0]);
      assert found.Some? && found.value <= turns[0];
      var next := TurnEnd(history, found.value);
      forall r | 0 <= r < |turns[1..]|
        ensures next <= turns[1..][r] < |history| && Matches(history, Projected(runs[1..][r]), turns[1..][r])
      {
        assert found.value < turns[r + 1] && history[turns[r + 1]].role == USER;
      }
      GreedyIsLeftmost(history, next, runs[1..], turns[1..]);
      var cuts, rest := Cuts(history, cursor, runs), Cuts(history, next, runs[1..]);
      assert forall r :: 0 < r < |cuts| ==> cuts[r] == rest[r - 1];
    }
  }

  // The greedy search places every run exactly when some placement exists.
  lemma GreedyIsComplete(history: seq<HistoryMessage>, runs: seq<seq<SubSessionEvent>>)
    ensures AllMatched(Cuts(history, 0, runs)) <==> exists turns :: Embedding(history, 0, runs, turns)
  {
    var cuts := Cuts(history, 0, runs);
    CutsAreValid(history, 0, runs);
    if AllMatched(cuts) {
      var turns := seq(|cuts|, r requires 0 <= r < |cuts| => cuts[r].value);
      assert Embedding(history, 0, runs, turns);
    }
    forall turns | Embedding(history, 0, runs, turns)
      ensures AllMatched(cuts)
    {
      GreedyIsLeftmost(history, 0, runs, turns);
    }
  }

  // Whole turns of the history, in order, whose text is the runs' projections.
  ghost predicate ExactEmbedding(history: seq<HistoryMessage>, runs: seq<seq<SubSessionEvent>>, turns: seq<nat>) {
    && |turns| == |runs|
    && (forall r :: 0 <= r < |turns| ==>
          && turns[r] < |history| && history[turns[r]].role == USER
          && Turn(history, turns[r]) == Projected(runs[r]))
    && (forall q, r :: 0 <= q < r < |turns| ==> turns[q] < turns[r])
  }

  ghost predicate ExactCuts(history: seq<HistoryMessage>, runs: seq<seq<SubSessionEvent>>, cuts: seq<Option<nat>>) {
    && |cuts| == |runs|
    && forall r :: 0 <= r < |cuts| ==>
         cuts[r].Some? && cuts[r].value < |history| && Turn(history, cuts[r].value) == Projected(runs[r])
  }

  lemma {:induction false} FirstPartIsKept(first: Part, more: seq<Part>)
    requires forall i :: 0 <= i < |more| ==> more[i].role != USER
    requires first.role == USER
    ensures
      var all := PushAll([first], more);
      && all != [] && all[0] == first
      && (|all| > 1 ==> all[|all| - 1].role != USER)
      && (more != [] ==> |all| > 1)
  {
    if more != [] {
      FirstPartIsKept(first, more[..|more| - 1]);
    }
  }

  // A whole turn coalesces to its user message first, then something else.
  lemma TurnStartsWithUser(history: seq<HistoryMessage>, start: nat)
    requires start < |history| && history[start].role == USER
    ensures Turn(history, start) != [] && Turn(history, start)[0] == Part(USER, history[start].text)
  {
    var end := TurnEnd(history, start);
    var first, more := Parts(history[start..start + 1]), Parts(history[start + 1..end]);
    assert Parts(history[start..end]) == first + more;
    PushAllConcat([], first, more);
    assert first[..0] == [] && PushAll([], first) == first;
    FirstPartIsKept(first[0], more);
  }

  // Completeness, in the terms of the conversation itself: when each run's
  // projection is a turn of the history and the turns are in the runs' order,
  // every run replaces exactly one whole turn with the same text.
  lemma ExactTurnsAreReplaced(history: seq<HistoryMessage>, runs: seq<seq<SubSessionEvent>>, turns: seq<nat>)
    requires ExactEmbedding(history, runs, turns)
    ensures ExactCuts(history, runs, Cuts(history, 0, runs))
  {
    hide Projected, Turn, ActivePrefix, Cuts, NextUser;
    forall r | 0 <= r < |turns| ensures Matches(history, Projected(runs[r]), turns[r]) {
      TurnStartsWithUser(history, turns[r]);
    }
    GreedyIsLeftmost(history, 0, runs, turns);
    CutsAreValid(history, 0, runs);
    var cuts := Cuts(history, 0, runs);
    forall r | 0 <= r < |cuts| ensures Turn(history, cuts[r].value) == Projected(runs[r]) {
      assert Matches(history, Projected(runs[r]), cuts[r].value);
      // Only the final turn may be matched as a prefix, and then it is turn r itself.
      assert cuts[r].value <= turns[r] && history[turns[r]].role == USER;
      assert cuts[r].value == turns[r] || TurnEnd(history, cuts[r].value) < |history|;
    }
  }

  // ---------------------------------------------------------------------------
  // Replay preserves the conversation's text
  // ---------------------------------------------------------------------------

  // The text a reader of the merged list sees: messages as they are, events as
  // their run's projection shows them.
  function Shown(items: seq<HistoryReplayItem>): seq<Part> {
    if items == [] then []
    else
      var front := items[..|items| - 1];
      Shown(front) +
      match items[|items| - 1]
      case Message(message) => [Part(message.role, message.text)]
      case Event(event) => EventMessages(SameRun(EventsOf(front), Key(event)), event)
  }

  lemma ShownOneMessage(pre: seq<HistoryReplayItem>, message: HistoryMessage)
    ensures Shown(pre + [Message(message)]) == Shown(pre) + [Part(message.role, message.text)]
  {
    hide EventsOf, SameRun, EventMessages;
    assert (pre + [Message(message)])[..|pre|] == pre;
  }

  lemma {:induction false} ShownMessages(pre: seq<HistoryReplayItem>, messages: seq<HistoryMessage>)
    ensures Shown(pre + AsMessages(messages)) == Shown(pre) + Parts(messages)
  {
    hide Shown;
    if messages == [] {
      assert pre + AsMessages(messages) == pre;
    } else {
      var front, last := messages[..|messages| - 1], messages[|messages| - 1];
      ShownMessages(pre, front);
      ShownOneMessage(pre + AsMessages(front), last);
      Associative(pre, AsMessages(front), [Message(last)]);
      Associative(Shown(pre), Parts(front), [Part(last.role, last.text)]);
    }
  }

  lemma ShownOneEvent(pre: seq<HistoryReplayItem>, event: SubSessionEvent)
    ensures Shown(pre + [Event(event)]) == Shown(pre) + EventMessages(SameRun(EventsOf(pre), Key(event)), event)
    ensures EventsOf(pre + [Event(event)]) == EventsOf(pre) + [event]
    ensures SameRun(EventsOf(pre) + [event], Key(event)) == SameRun(EventsOf(pre), Key(event)) + [event]
  {
    assert (pre + [Event(event)])[..|pre|] == pre;
    assert (EventsOf(pre) + [event])[..|EventsOf(pre)|] == EventsOf(pre);
  }

  lemma ShownRunStep(pre: seq<HistoryReplayItem>, run: seq<SubSessionEvent>, event: SubSessionEvent)
    requires Shown(pre + AsEvents(run)) == Shown(pre) + RunMessages(run)
    requires SameRun(EventsOf(pre + AsEvents(run)), Key(event)) == run
    ensures Shown(pre + AsEvents(run) + [Event(event)]) == Shown(pre) + RunMessages(run + [event])
    ensures SameRun(EventsOf(pre + AsEvents(run) + [Event(event)]), Key(event)) == run + [event]
  {
    hide *;
    ShownOneEvent(pre + AsEvents(run), event);
    RunMessagesSnoc(run, event);
    Associative(Shown(pre), RunMessages(run), EventMessages(run, event));
  }

  lemma RunMessagesSnoc(run: seq<SubSessionEvent>, event: SubSessionEvent)
    ensures RunMessages(run + [event]) == RunMessages(run) + EventMessages(run, event)
  {
    assert (run + [event])[..|run|] == run;
  }

  lemma Associative<T>(a: seq<T>, b: seq<T>, c: seq<T>)
    ensures a + b + c == a + (b + c)
  {
  }

  lemma EventsSnoc(pre: seq<HistoryReplayItem>, run: seq<SubSessionEvent>, event: SubSessionEvent)
    ensures pre + AsEvents(run + [event]) == pre + AsEvents(run) + [Event(event)]
  {
    assert AsEvents(run + [event]) == AsEvents(run) + [Event(event)];
  }

  lemma {:induction false} ShownRun(pre: seq<HistoryReplayItem>, run: seq<SubSessionEvent>, key: RunKey)
    requires forall i :: 0 <= i < |run| ==> Key(run[i]) == key
    requires SameRun(EventsOf(pre), key) == []
    ensures Shown(pre + AsEvents(run)) == Shown(pre) + RunMessages(run)
    ensures SameRun(EventsOf(pre + AsEvents(run)), key) == run
  {
    hide Shown, EventsOf, SameRun, EventMessages;
    if run == [] {
      assert pre + AsEvents(run) == pre;
    } else {
      var front, last := run[..|run| - 1], run[|run| - 1];
      ShownRun(pre, front, key);
      ShownRunStep(pre, front, last);
      EventsSnoc(pre, front, last);
      assert run == front + [last];
    }
  }

  lemma {:induction false} RunEventsHaveKey(events: seq<SubSessionEvent>, key: RunKey)
    ensures forall i :: 0 <= i < |SameRun(events, key)| ==> Key(SameRun(events, key)[i]) == key
  {
    if events != [] {
      RunEventsHaveKey(events[..|events| - 1], key);
    }
  }

  // Showing a run's block adds the run's messages, and only its own events.
  lemma ShownBlock(pre: seq<HistoryReplayItem>, messages: seq<HistoryMessage>, events: seq<SubSessionEvent>, key: RunKey)
    requires SameRun(EventsOf(pre), key) == []
    ensures
      var pre' := pre + AsMessages(messages) + AsEvents(SameRun(events, key));
      && Shown(pre') == Shown(pre) + Parts(messages) + RunMessages(SameRun(events, key))
      && forall other :: other != key && SameRun(EventsOf(pre), other) == [] ==> SameRun(EventsOf(pre'), other) == []
  {
    hide *;
    var copied, run := pre + AsMessages(messages), SameRun(events, key);
    ShownMessages(pre, messages);
    OfConcat(pre, AsMessages(messages));
    OfMessages(messages);
    assert EventsOf(copied) == EventsOf(pre);
    RunEventsHaveKey(events, key);
    ShownRun(copied, run, key);
    OfConcat(copied, AsEvents(run));
    OfEvents(run);
    forall other | other != key && SameRun(EventsOf(pre), other) == []
      ensures SameRun(EventsOf(copied + AsEvents(run)), other) == []
    {
      SameRunConcat(EventsOf(pre), run, other);
      SameRunOfSameRun(events, key, other);
    }
  }

  lemma PartsSplit(history: seq<HistoryMessage>, a: nat, b: nat, c: nat)
    requires a <= b <= c <= |history|
    ensures Parts(history[a..c]) == Parts(history[a..b]) + Parts(history[b..c])
  {
    var whole, left, right := Parts(history[a..c]), Parts(history[a..b]), Parts(history[b..c]);
    forall i | 0 <= i < |whole| ensures whole[i] == (left + right)[i] {
      assert history[a..c][i] == history[a + i];
    }
    assert |whole| == |left + right|;
    assert whole == left + right;
  }

  lemma CoalesceAcrossTurn(history: seq<HistoryMessage>, cursor: nat, start: nat, next: nat,
                           shown: seq<Part>, run: seq<Part>)
    requires cursor <= start <= next <= |history|
    requires Coalesce(run) == Coalesce(Parts(history[start..next]))
    ensures PushAll(Coalesce(shown + Parts(history[cursor..start]) + run), Parts(history[next..]))
         == PushAll(Coalesce(shown), Parts(history[cursor..]))
  {
    hide PushAll, Parts;
    var before, turn, after := Parts(history[cursor..start]), Parts(history[start..next]), Parts(history[next..]);
    PushAllConcat([], shown + before, run);
    PushAllConcat([], shown, before);
    SameCoalescedSameEffect(PushAll(Coalesce(shown), before), run, turn);
    assert forall i :: 0 <= i <= |history| ==> history[i..] == history[i..|history|];
    PartsSplit(history, cursor, start, |history|);
    PartsSplit(history, start, next, |history|);
    assert before + (turn + after) == before + turn + after;
    PushAllConcat(Coalesce(shown), before + turn, after);
    PushAllConcat(Coalesce(shown), before, turn);
  }

  lemma {:induction false} ShownMerge(pre: seq<HistoryReplayItem>, history: seq<HistoryMessage>, cursor: nat,
                                      events: seq<SubSessionEvent>, keys: seq<RunKey>)
    requires cursor <= |history|
    requires forall i, j :: 0 <= i < j < |keys| ==> keys[i] != keys[j]
    requires forall k :: k in keys ==> SameRun(EventsOf(pre), k) == []
    requires ExactCuts(history, RunsOf(events, keys), Cuts(history, cursor, RunsOf(events, keys)))
    ensures Coalesce(Shown(pre + MergeFrom(history, cursor, RunsOf(events, keys))))
         == PushAll(Coalesce(Shown(pre)), Parts(history[cursor..]))
    decreases |keys|
  {
    hide PushAll, Parts, Shown, EventsOf, SameRun, RunMessages, AsMessages, AsEvents, FindMatch, NextUser;
    var runs := RunsOf(events, keys);
    if keys == [] {
      ShownMessages(pre, history[cursor..]);
      PushAllConcat([], Shown(pre), Parts(history[cursor..]));
    } else {
      var key, run := keys[0], runs[0];
      assert runs[1..] == RunsOf(events, keys[1..]);
      var cuts := Cuts(history, cursor, runs);
      var found := FindMatch(history, Projected(run), cursor);
      assert cuts[0] == found;
      var start, next := found.value, TurnEnd(history, found.value);
      var rest := MergeFrom(history, next, runs[1..]);
      var pre' := pre + AsMessages(history[cursor..start]) + AsEvents(run);
      AppendAll(pre, AsMessages(history[cursor..start]), AsEvents(run), rest);
      ShownBlock(pre, history[cursor..start], events, key);
      assert forall r :: 0 <= r < |cuts[1..]| ==> cuts[1..][r] == cuts[r + 1] && runs[1..][r] == runs[r + 1];
      ShownMerge(pre', history, next, events, keys[1..]);
      CoalesceAcrossTurn(history, cursor, start, next, Shown(pre), RunMessages(run));
    }
  }

  lemma ExactReplayShowsHistory(history: seq<HistoryMessage>, events: seq<SubSessionEvent>)
    requires ExactCuts(history, Runs(events), Cuts(history, 0, Runs(events)))
    ensures Coalesce(Shown(Merge(history, events))) == Coalesce(Parts(history))
  {
    hide Shown, MergeFrom, RunsOf, Cuts, ExactCuts, Parts, SameRun;
    ShownMerge([], history, 0, events, RunKeys(events)) by {
      assert EventsOf([]) == [];
      forall k ensures SameRun([], k) == [] {
        EmptyRun(k);
      }
    }
    assert [] + Merge(history, events) == Merge(history, events);
    assert history[0..] == history;
    ShownNothing();
  }

  lemma EmptyRun(key: RunKey)
    ensures SameRun([], key) == []
  {
  }

  lemma ShownNothing()
    ensures Shown([]) == []
  {
  }

  // A conversation whose runs were all mirrored while they were recorded (with any
  // direct turns before, between and after them) is replayed with exactly the text
  // of its history: nothing lost, nothing shown twice.
  lemma ReplayShowsHistory(history: seq<HistoryMessage>, log: seq<SubSessionEvent>, turns: seq<nat>)
    requires OneThreadPerRunId(log)
    requires |turns| == |RunKeys(log)|
    requires forall r :: 0 <= r < |turns| ==>
      && turns[r] < |history| && history[turns[r]].role == USER
      && Turn(history, turns[r]) == Coalesce(Mirrored(log, RunKeys(log)[r]))
    requires forall q, r :: 0 <= q < r < |turns| ==> turns[q] < turns[r]
    ensures ExactCuts(history, Runs(log), Cuts(history, 0, Runs(log)))
    ensures Coalesce(Shown(Merge(history, log))) == Coalesce(Parts(history))
  {
    hide Cuts, ExactCuts, Mirrored, Shown, Merge, SameRun, RunKeys, Projected, Turn, Coalesce, OneThreadPerRunId;
    forall r | 0 <= r < |turns| ensures Turn(history, turns[r]) == Projected(Runs(log)[r]) {
      ProjectionIsMirrored(log, RunKeys(log)[r]);
    }
    ExactTurnsAreReplaced(history, Runs(log), turns);
    ExactReplayShowsHistory(history, log);
  }
}
