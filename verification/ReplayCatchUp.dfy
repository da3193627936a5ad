/** Replay of a log that got ahead of the history snapshot (`src/sub_session.rs`).

The history is read before the log. What was recorded in between is in the log only: the
end of the run that was active, and runs that began later.
*/
module ReplayCatchUp {
  import opened Text
  import opened SubSession
  import opened SubSessionReplay

  // A thread's runs do not overlap: an event belongs to the last run or opens one.
  predicate Sequential(log: seq<SubSessionEvent>) {
    log == [] ||
    var front, last := log[..|log| - 1], log[|log| - 1];
    Sequential(front) && (Key(last) in RunKeys(front) ==> RunKeys(front)[|RunKeys(front)| - 1] == Key(last))
  }

  // Every run has one start, first.
  predicate StartsRuns(log: seq<SubSessionEvent>) {
    log == [] ||
    var front, last := log[..|log| - 1], log[|log| - 1];
    StartsRuns(front) && (last.event.RunStart? <==> Key(last) !in RunKeys(front))
  }

  // What recording mirrors for the events from an index on.
  function MirroredSince(log: seq<SubSessionEvent>, from: nat): seq<Part> {
    if |log| <= from then []
    else
      var front := log[..|log| - 1];
      MirroredSince(front, from) + HistoryMessagesForRun(front, log[|log| - 1])
  }

  function AllMessages(log: seq<SubSessionEvent>, keys: seq<RunKey>): seq<Part> {
    if keys == [] then []
    else AllMessages(log, keys[..|keys| - 1]) + RunMessages(SameRun(log, keys[|keys| - 1]))
  }

  // ---------------------------------------------------------------------------
  // One more event
  // ---------------------------------------------------------------------------

  lemma SnocKeys(log: seq<SubSessionEvent>, event: SubSessionEvent)
    ensures RunKeys(log + [event]) == if Key(event) in RunKeys(log) then RunKeys(log) else RunKeys(log) + [Key(event)]
  {
    assert (log + [event])[..|log|] == log;
  }

  lemma SnocSequential(log: seq<SubSessionEvent>, event: SubSessionEvent)
    ensures Sequential(log + [event])
        <==> Sequential(log) && (Key(event) in RunKeys(log) ==> RunKeys(log)[|RunKeys(log)| - 1] == Key(event))
  {
    hide RunKeys;
    assert (log + [event])[..|log|] == log;
  }

  lemma SnocStarts(log: seq<SubSessionEvent>, event: SubSessionEvent)
    ensures StartsRuns(log + [event]) <==> StartsRuns(log) && (event.event.RunStart? <==> Key(event) !in RunKeys(log))
  {
    hide RunKeys;
    assert (log + [event])[..|log|] == log;
  }

  lemma SnocEvent(log: seq<SubSessionEvent>, event: SubSessionEvent)
    ensures RunKeys(log + [event]) == if Key(event) in RunKeys(log) then RunKeys(log) else RunKeys(log) + [Key(event)]
    ensures Sequential(log + [event])
        <==> Sequential(log) && (Key(event) in RunKeys(log) ==> RunKeys(log)[|RunKeys(log)| - 1] == Key(event))
    ensures StartsRuns(log + [event]) <==> StartsRuns(log) && (event.event.RunStart? <==> Key(event) !in RunKeys(log))
  {
    hide *;
    SnocKeys(log, event);
    SnocSequential(log, event);
    SnocStarts(log, event);
  }

  lemma SnocRun(log: seq<SubSessionEvent>, event: SubSessionEvent, key: RunKey)
    ensures SameRun(log + [event], key) == if Key(event) == key then SameRun(log, key) + [event] else SameRun(log, key)
  {
    assert (log + [event])[..|log|] == log;
  }

  lemma SnocMessages(log: seq<SubSessionEvent>, event: SubSessionEvent)
    requires OneThreadPerRunId(log + [event])
    ensures RunMessages(SameRun(log + [event], Key(event)))
         == RunMessages(SameRun(log, Key(event))) + HistoryMessagesForRun(log, event)
  {
    var whole := log + [event];
    forall i | 0 <= i < |log| && log[i].runId == event.runId ensures log[i].threadId == event.threadId {
      assert whole[i] == log[i] && whole[|log|] == event;
    }
    StreamedAgrees(log, Key(event));
    SnocRun(log, event, Key(event));
    RunMessagesSnoc(SameRun(log, Key(event)), event);
  }

  lemma {:induction false} AllMessagesStay(log: seq<SubSessionEvent>, event: SubSessionEvent, keys: seq<RunKey>)
    requires Key(event) !in keys
    ensures AllMessages(log + [event], keys) == AllMessages(log, keys)
  {
    hide SameRun, RunMessages;
    if keys != [] {
      AllMessagesStay(log, event, keys[..|keys| - 1]);
      SnocRun(log, event, keys[|keys| - 1]);
    }
  }

  lemma AllMessagesSnoc(log: seq<SubSessionEvent>, keys: seq<RunKey>, key: RunKey)
    ensures AllMessages(log, keys + [key]) == AllMessages(log, keys) + RunMessages(SameRun(log, key))
  {
    assert (keys + [key])[..|keys|] == keys;
  }

  lemma MirroredSnoc(log: seq<SubSessionEvent>, event: SubSessionEvent, from: nat)
    requires from <= |log|
    ensures MirroredSince(log + [event], from) == MirroredSince(log, from) + HistoryMessagesForRun(log, event)
  {
    assert (log + [event])[..|log|] == log;
  }

  // ---------------------------------------------------------------------------
  // What a log gains
  // ---------------------------------------------------------------------------

  ghost predicate Spoken(parts: seq<Part>) {
    forall i :: 0 <= i < |parts| ==> parts[i].role == ASSISTANT && parts[i].text != ""
  }

  lemma MessagesAreSpoken(log: seq<SubSessionEvent>, event: SubSessionEvent)
    requires !event.event.RunStart?
    ensures Spoken(HistoryMessagesForRun(log, event))
  {
  }

  lemma SpokenConcat(a: seq<Part>, b: seq<Part>)
    requires Spoken(a) && Spoken(b)
    ensures Spoken(a + b)
  {
  }

  // From `earlier` to `log`, the last run grew by the messages `tail`, and other runs
  // followed it; nothing else was mirrored.
  ghost predicate Grown(earlier: seq<SubSessionEvent>, log: seq<SubSessionEvent>, tail: seq<Part>)
    requires RunKeys(earlier) != []
  {
    var keys, n := RunKeys(log), |RunKeys(earlier)|;
    var active := RunKeys(earlier)[n - 1];
    && n <= |keys| && keys[..n] == RunKeys(earlier)
    && (forall i :: 0 <= i < n - 1 ==> SameRun(log, RunKeys(earlier)[i]) == SameRun(earlier, RunKeys(earlier)[i]))
    && RunMessages(SameRun(log, active)) == RunMessages(SameRun(earlier, active)) + tail
    && tail + AllMessages(log, keys[n..]) == MirroredSince(log, |earlier|)
    && Spoken(tail)
  }

  lemma {:induction false} LogGrows(earlier: seq<SubSessionEvent>, more: seq<SubSessionEvent>) returns (tail: seq<Part>)
    requires RunKeys(earlier) != []
    requires Sequential(earlier + more) && StartsRuns(earlier + more) && OneThreadPerRunId(earlier + more)
    ensures Grown(earlier, earlier + more, tail)
  {
    if more == [] {
      assert earlier + more == earlier;
      tail := [];
      assert RunKeys(earlier)[|RunKeys(earlier)|..] == [];
      assert RunKeys(earlier)[..|RunKeys(earlier)|] == RunKeys(earlier);
      assert RunMessages(SameRun(earlier, RunKeys(earlier)[|RunKeys(earlier)| - 1])) + []
          == RunMessages(SameRun(earlier, RunKeys(earlier)[|RunKeys(earlier)| - 1]));
    } else {
      var front, event := more[..|more| - 1], more[|more| - 1];
      var log := earlier + front;
      assert earlier + more == log + [event];
      hide Grown, RunKeys, Sequential, StartsRuns, OneThreadPerRunId;
      SnocEvent(log, event);
      OneThreadStays(log, event);
      tail := LogGrows(earlier, front);
      tail := GrowsByOne(earlier, log, event, tail);
    }
  }

  lemma OneThreadStays(log: seq<SubSessionEvent>, event: SubSessionEvent)
    requires OneThreadPerRunId(log + [event])
    ensures OneThreadPerRunId(log)
  {
    var whole := log + [event];
    forall i, j | 0 <= i < |log| && 0 <= j < |log| && log[i].runId == log[j].runId
      ensures log[i].threadId == log[j].threadId
    {
      assert whole[i] == log[i] && whole[j] == log[j];
    }
  }

  lemma GrowsByOne(earlier: seq<SubSessionEvent>, log: seq<SubSessionEvent>, event: SubSessionEvent, tail: seq<Part>)
    returns (tail': seq<Part>)
    requires RunKeys(earlier) != [] && Grown(earlier, log, tail) && |earlier| <= |log|
    requires Sequential(log + [event]) && StartsRuns(log + [event]) && OneThreadPerRunId(log + [event])
    ensures Grown(earlier, log + [event], tail')
  {
    hide SameRun, RunMessages, AllMessages, MirroredSince, HistoryMessagesForRun, RunKeys, Sequential, StartsRuns,
         OneThreadPerRunId;
    var keys, n, key := RunKeys(log), |RunKeys(earlier)|, Key(event);
    var active, message := RunKeys(earlier)[n - 1], HistoryMessagesForRun(log, event);
    assert keys[n - 1] == active;
    SnocEvent(log, event);
    SnocMessages(log, event);
    MirroredSnoc(log, event, |earlier|);
    OthersStay(log, event);
    if key in keys && |keys| == n {
      tail' := tail + message;
      NoneFollowed(earlier, log, tail);
      ActiveGoesOn(earlier, log, event, tail);
      NoneFollowed(earlier, log + [event], tail');
    } else {
      tail' := tail;
      LaterRunGrows(log, event, n);
    }
  }

  // No run followed the one that was active.
  ghost predicate OnlyActiveGrew(earlier: seq<SubSessionEvent>, log: seq<SubSessionEvent>, tail: seq<Part>)
    requires RunKeys(earlier) != []
  {
    var keys, last := RunKeys(earlier), |RunKeys(earlier)| - 1;
    && RunKeys(log) == keys
    && (forall i :: 0 <= i < last ==> SameRun(log, keys[i]) == SameRun(earlier, keys[i]))
    && RunMessages(SameRun(log, keys[last])) == RunMessages(SameRun(earlier, keys[last])) + tail
    && tail == MirroredSince(log, |earlier|)
    && Spoken(tail)
  }

  lemma NoneFollowed(earlier: seq<SubSessionEvent>, log: seq<SubSessionEvent>, tail: seq<Part>)
    requires RunKeys(earlier) != []
    ensures OnlyActiveGrew(earlier, log, tail)
        <==> Grown(earlier, log, tail) && |RunKeys(log)| == |RunKeys(earlier)|
  {
    hide SameRun, RunMessages, MirroredSince, RunKeys, AllMessages, Spoken;
    NoKeys(log);
    assert RunKeys(log)[|RunKeys(log)|..] == [] && RunKeys(log)[..|RunKeys(log)|] == RunKeys(log);
    assert tail + [] == tail;
  }

  lemma {:induction false} ActiveGoesOn(earlier: seq<SubSessionEvent>, log: seq<SubSessionEvent>, event: SubSessionEvent, tail: seq<Part>)
    requires RunKeys(earlier) != [] && OnlyActiveGrew(earlier, log, tail) && |earlier| <= |log|
    requires RunKeys(log + [event]) == RunKeys(log) && Key(event) == RunKeys(earlier)[|RunKeys(earlier)| - 1]
    requires OneThreadPerRunId(log + [event]) && !event.event.RunStart?
    ensures OnlyActiveGrew(earlier, log + [event], tail + HistoryMessagesForRun(log, event))
  {
    hide SameRun, RunMessages, MirroredSince, HistoryMessagesForRun, RunKeys, OneThreadPerRunId, Spoken;
    var keys, last, message := RunKeys(earlier), |RunKeys(earlier)| - 1, HistoryMessagesForRun(log, event);
    SnocMessages(log, event);
    MirroredSnoc(log, event, |earlier|);
    MessagesAreSpoken(log, event);
    SpokenConcat(tail, message);
    forall i | 0 <= i < last ensures SameRun(log + [event], keys[i]) == SameRun(earlier, keys[i]) {
      SnocRun(log, event, keys[i]);
    }
    Regroup(RunMessages(SameRun(earlier, keys[last])), tail, message);
  }

  lemma NoKeys(log: seq<SubSessionEvent>)
    ensures AllMessages(log, []) == []
  {
  }

  lemma OthersStay(log: seq<SubSessionEvent>, event: SubSessionEvent)
    ensures forall key :: key != Key(event) ==> SameRun(log + [event], key) == SameRun(log, key)
  {
    forall key | key != Key(event) ensures SameRun(log + [event], key) == SameRun(log, key) {
      SnocRun(log, event, key);
    }
  }

  lemma LastKeyGrows(log: seq<SubSessionEvent>, event: SubSessionEvent, before: seq<RunKey>)
    requires OneThreadPerRunId(log + [event]) && Key(event) !in before
    ensures AllMessages(log + [event], before + [Key(event)])
         == AllMessages(log, before) + (RunMessages(SameRun(log, Key(event))) + HistoryMessagesForRun(log, event))
  {
    hide *;
    SnocMessages(log, event);
    AllMessagesStay(log, event, before);
    AllMessagesSnoc(log + [event], before, Key(event));
  }

  lemma SplitLast(keys: seq<RunKey>, n: nat)
    requires n < |keys| && forall i, j :: 0 <= i < j < |keys| ==> keys[i] != keys[j]
    ensures keys[n..] == keys[n..|keys| - 1] + [keys[|keys| - 1]]
    ensures keys[|keys| - 1] !in keys[n..|keys| - 1] && keys[|keys| - 1] !in keys[..n]
  {
  }

  // The event belongs to a run after the first `n`.
  lemma LaterRunGrows(log: seq<SubSessionEvent>, event: SubSessionEvent, n: nat)
    requires Sequential(log + [event]) && OneThreadPerRunId(log + [event])
    requires n <= |RunKeys(log)| && (Key(event) in RunKeys(log) ==> n < |RunKeys(log)|)
    ensures Key(event) !in RunKeys(log)[..n] && |RunKeys(log + [event])| >= n
    ensures RunKeys(log + [event])[..n] == RunKeys(log)[..n]
    ensures AllMessages(log + [event], RunKeys(log + [event])[n..])
         == AllMessages(log, RunKeys(log)[n..]) + HistoryMessagesForRun(log, event)
  {
    hide SameRun, RunMessages, AllMessages, HistoryMessagesForRun, RunKeys, Sequential, OneThreadPerRunId;
    SnocEvent(log, event);
    if Key(event) in RunKeys(log) {
      LaterRunGoesOn(log, event, n);
    } else {
      LaterRunBegins(log, event, n);
    }
  }

  lemma LaterRunGoesOn(log: seq<SubSessionEvent>, event: SubSessionEvent, n: nat)
    requires OneThreadPerRunId(log + [event]) && n < |RunKeys(log)|
    requires RunKeys(log)[|RunKeys(log)| - 1] == Key(event) && RunKeys(log + [event]) == RunKeys(log)
    ensures Key(event) !in RunKeys(log)[..n]
    ensures AllMessages(log + [event], RunKeys(log + [event])[n..])
         == AllMessages(log, RunKeys(log)[n..]) + HistoryMessagesForRun(log, event)
  {
    hide *;
    var keys := RunKeys(log);
    var before := keys[n..|keys| - 1];
    SplitLast(keys, n);
    LastKeyGrows(log, event, before);
    AllMessagesSnoc(log, before, Key(event));
    Regroup(AllMessages(log, before), RunMessages(SameRun(log, Key(event))), HistoryMessagesForRun(log, event));
  }

  lemma Regroup<T>(a: seq<T>, b: seq<T>, c: seq<T>)
    ensures a + (b + c) == a + b + c
  {
  }

  lemma LaterRunBegins(log: seq<SubSessionEvent>, event: SubSessionEvent, n: nat)
    requires OneThreadPerRunId(log + [event]) && n <= |RunKeys(log)|
    requires Key(event) !in RunKeys(log) && RunKeys(log + [event]) == RunKeys(log) + [Key(event)]
    ensures AllMessages(log + [event], RunKeys(log + [event])[n..])
         == AllMessages(log, RunKeys(log)[n..]) + HistoryMessagesForRun(log, event)
  {
    hide SameRun, RunMessages, AllMessages, HistoryMessagesForRun, RunKeys, OneThreadPerRunId;
    var keys := RunKeys(log);
    assert RunKeys(log + [event])[n..] == keys[n..] + [Key(event)];
    LastKeyGrows(log, event, keys[n..]);
    NoEventsOfRun(log, Key(event));
    NoMessages();
  }

  lemma NoMessages()
    ensures RunMessages([]) == []
  {
  }

  // ---------------------------------------------------------------------------
  // What a reader sees
  // ---------------------------------------------------------------------------

  // Speech after a turn leaves it an active prefix.
  lemma {:induction false} PrefixGrows(turn: seq<Part>, tail: seq<Part>)
    requires Spoken(tail)
    ensures ActivePrefix(turn, PushAll(turn, tail))
  {
    if tail != [] {
      PrefixGrows(turn, tail[..|tail| - 1]);
    }
  }

  lemma {:induction false} AllMessagesCons(log: seq<SubSessionEvent>, keys: seq<RunKey>)
    requires keys != []
    ensures AllMessages(log, keys) == RunMessages(SameRun(log, keys[0])) + AllMessages(log, keys[1..])
  {
    hide RunMessages, SameRun;
    if |keys| > 1 {
      var front := keys[..|keys| - 1];
      AllMessagesCons(log, front);
      assert front[1..] == keys[1..][..|keys[1..]| - 1];
    } else {
      assert keys[..0] == [];
    }
  }

  // Past the end of the history, runs are only appended.
  lemma {:induction false} RunsAtEnd(pre: seq<HistoryReplayItem>, history: seq<HistoryMessage>,
                                     events: seq<SubSessionEvent>, keys: seq<RunKey>)
    requires forall i, j :: 0 <= i < j < |keys| ==> keys[i] != keys[j]
    requires forall k :: k in keys ==> SameRun(EventsOf(pre), k) == []
    ensures Shown(pre + MergeFrom(history, |history|, RunsOf(events, keys))) == Shown(pre) + AllMessages(events, keys)
    decreases |keys|
  {
    hide Shown, EventsOf, SameRun, RunMessages, AsEvents, Parts, AllMessages;
    var runs := RunsOf(events, keys);
    if keys == [] {
      assert history[|history|..] == [];
      assert pre + MergeFrom(history, |history|, runs) == pre;
      NoKeys(events);
    } else {
      var run, nothing := runs[0], history[|history|..|history|];
      assert runs[1..] == RunsOf(events, keys[1..]);
      var rest := MergeFrom(history, |history|, runs[1..]);
      var pre' := pre + AsMessages(nothing) + AsEvents(run);
      AppendAll(pre, AsMessages(nothing), AsEvents(run), rest);
      ShownBlock(pre, nothing, events, keys[0]);
      assert Parts(nothing) == [];
      RunsAtEnd(pre', history, events, keys[1..]);
      AllMessagesCons(events, keys);
      Regroup(Shown(pre), RunMessages(run), AllMessages(events, keys[1..]));
    }
  }

  // The turns of the runs a history has: those before the last are whole, the last ends
  // the history and lacks the messages `tail`.
  ghost predicate BehindBy(history: seq<HistoryMessage>, events: seq<SubSessionEvent>, keys: seq<RunKey>,
                           turns: seq<nat>, mirrored: seq<Part>, tail: seq<Part>)
  {
    && 1 <= |turns| <= |keys|
    && (forall r :: 0 <= r < |turns| ==> turns[r] < |history| && history[turns[r]].role == USER)
    && (forall q, r :: 0 <= q < r < |turns| ==> turns[q] < turns[r])
    && (forall r :: 0 <= r < |turns| - 1 ==> Turn(history, turns[r]) == Projected(SameRun(events, keys[r])))
    && TurnEnd(history, turns[|turns| - 1]) == |history|
    && Turn(history, turns[|turns| - 1]) == Coalesce(mirrored)
    && RunMessages(SameRun(events, keys[|turns| - 1])) == mirrored + tail
    && Spoken(tail)
  }

  lemma LastTurnMatches(history: seq<HistoryMessage>, events: seq<SubSessionEvent>, keys: seq<RunKey>,
                        turns: seq<nat>, mirrored: seq<Part>, tail: seq<Part>)
    requires BehindBy(history, events, keys, turns, mirrored, tail)
    ensures Matches(history, Projected(SameRun(events, keys[|turns| - 1])), turns[|turns| - 1])
    ensures Projected(SameRun(events, keys[|turns| - 1])) == PushAll(Turn(history, turns[|turns| - 1]), tail)
  {
    hide Turn, TurnEnd, SameRun, RunMessages, PushAll;
    var s := turns[|turns| - 1];
    TurnStartsWithUser(history, s);
    PushAllConcat([], mirrored, tail);
    PrefixGrows(Turn(history, s), tail);
  }

  // The first run is found where it stands, or earlier with the same text.
  lemma FirstTurnIsExact(history: seq<HistoryMessage>, cursor: nat, projected: seq<Part>, turn: nat, next: nat)
    requires cursor <= turn < next < |history| && history[turn].role == USER && history[next].role == USER
    requires Turn(history, turn) == projected
    ensures
      var found := FindMatch(history, projected, cursor);
      && found.Some? && found.value <= turn && TurnEnd(history, found.value) <= next
      && Turn(history, found.value) == projected
  {
    hide Turn;
    TurnStartsWithUser(history, turn);
    assert Matches(history, projected, turn);
    var found := FindMatch(history, projected, cursor);
    assert found.Some? && found.value <= turn;
    assert TurnEnd(history, found.value) <= next;
  }

  lemma {:induction false} TextAcrossTurn(history: seq<HistoryMessage>, cursor: nat, start: nat, next: nat, shown: seq<Part>,
                       run: seq<Part>, extra: seq<Part>)
    requires cursor <= start <= next <= |history|
    requires Coalesce(run) == Coalesce(Parts(history[start..next]))
    ensures PushAll(Coalesce(shown + Parts(history[cursor..start]) + run), Parts(history[next..]) + extra)
         == PushAll(Coalesce(shown), Parts(history[cursor..]) + extra)
  {
    hide PushAll, Parts, Coalesce;
    CoalesceAcrossTurn(history, cursor, start, next, shown, run);
    PushAllConcat(Coalesce(shown + Parts(history[cursor..start]) + run), Parts(history[next..]), extra);
    PushAllConcat(Coalesce(shown), Parts(history[cursor..]), extra);
  }

  lemma TextAtLastTurn(history: seq<HistoryMessage>, cursor: nat, start: nat, shown: seq<Part>,
                       mirrored: seq<Part>, tail: seq<Part>, later: seq<Part>)
    requires cursor <= start <= |history|
    requires Coalesce(mirrored) == Coalesce(Parts(history[start..|history|]))
    ensures Coalesce(shown + Parts(history[cursor..start]) + (mirrored + tail) + later)
         == PushAll(Coalesce(shown), Parts(history[cursor..]) + (tail + later))
  {
    hide PushAll, Parts, Coalesce;
    var upToTurn, extra := shown + Parts(history[cursor..start]), tail + later;
    NothingLeft(history, extra);
    TextAcrossTurn(history, cursor, start, |history|, shown, mirrored, extra);
    CoalesceConcat(upToTurn + mirrored, extra);
    Regroup3(upToTurn, mirrored, tail, later);
  }

  lemma NothingLeft(history: seq<HistoryMessage>, extra: seq<Part>)
    ensures Parts(history[|history|..]) + extra == extra
  {
    assert history[|history|..] == [];
  }

  lemma CoalesceConcat(a: seq<Part>, b: seq<Part>)
    ensures Coalesce(a + b) == PushAll(Coalesce(a), b)
  {
    PushAllConcat([], a, b);
  }

  lemma Regroup3<T>(a: seq<T>, b: seq<T>, c: seq<T>, d: seq<T>)
    ensures a + (b + c) + d == a + b + (c + d)
  {
  }

  // From any point before the turns: the history's text, the missing end of the last
  // run, and the runs that followed it.
  lemma {:induction false} ShownAhead(pre: seq<HistoryReplayItem>, history: seq<HistoryMessage>, cursor: nat,
                                      events: seq<SubSessionEvent>, keys: seq<RunKey>, turns: seq<nat>,
                                      mirrored: seq<Part>, tail: seq<Part>)
    requires forall i, j :: 0 <= i < j < |keys| ==> keys[i] != keys[j]
    requires forall k :: k in keys ==> SameRun(EventsOf(pre), k) == []
    requires BehindBy(history, events, keys, turns, mirrored, tail) && cursor <= turns[0]
    requires Cuts(history, cursor, RunsOf(events, keys))[|turns| - 1] == Some(turns[|turns| - 1])
    ensures Coalesce(Shown(pre + MergeFrom(history, cursor, RunsOf(events, keys))))
         == PushAll(Coalesce(Shown(pre)), Parts(history[cursor..]) + (tail + AllMessages(events, keys[|turns|..])))
    decreases |keys|
  {
    hide PushAll, Parts, Shown, EventsOf, SameRun, RunMessages, AsMessages, AsEvents, FindMatch, NextUser, AllMessages,
         Coalesce, Turn, Projected;
    var runs := RunsOf(events, keys);
    var run, found := runs[0], FindMatch(history, Projected(runs[0]), cursor);
    assert runs[1..] == RunsOf(events, keys[1..]);
    if |turns| > 1 {
      FirstTurnIsExact(history, cursor, Projected(run), turns[0], turns[1]);
    }
    var start, next := found.value, TurnEnd(history, found.value);
    var rest := MergeFrom(history, next, runs[1..]);
    var pre' := pre + AsMessages(history[cursor..start]) + AsEvents(run);
    AppendAll(pre, AsMessages(history[cursor..start]), AsEvents(run), rest);
    ShownBlock(pre, history[cursor..start], events, keys[0]);
    if |turns| > 1 {
      BehindStays(history, events, keys, turns, mirrored, tail);
      assert keys[1..][|turns[1..]|..] == keys[|turns|..];
      ShownAhead(pre', history, next, events, keys[1..], turns[1..], mirrored, tail);
      ExactTurn(history, start, run);
      TextAcrossTurn(history, cursor, start, next, Shown(pre), RunMessages(run),
                     tail + AllMessages(events, keys[|turns|..]));
    } else {
      RunsAtEnd(pre', history, events, keys[1..]);
      LastTurnText(history, start, mirrored);
      TextAtLastTurn(history, cursor, start, Shown(pre), mirrored, tail, AllMessages(events, keys[1..]));
    }
  }

  lemma ExactTurn(history: seq<HistoryMessage>, start: nat, run: seq<SubSessionEvent>)
    requires start < |history| && Turn(history, start) == Projected(run)
    ensures Coalesce(RunMessages(run)) == Coalesce(Parts(history[start..TurnEnd(history, start)]))
  {
  }

  lemma LastTurnText(history: seq<HistoryMessage>, start: nat, mirrored: seq<Part>)
    requires start < |history| && Turn(history, start) == Coalesce(mirrored) && TurnEnd(history, start) == |history|
    ensures Coalesce(mirrored) == Coalesce(Parts(history[start..|history|]))
  {
  }

  lemma BehindStays(history: seq<HistoryMessage>, events: seq<SubSessionEvent>, keys: seq<RunKey>, turns: seq<nat>,
                    mirrored: seq<Part>, tail: seq<Part>)
    requires BehindBy(history, events, keys, turns, mirrored, tail) && |turns| > 1
    ensures BehindBy(history, events, keys[1..], turns[1..], mirrored, tail)
  {
    hide Turn, TurnEnd, Projected, SameRun, RunMessages, Coalesce, Spoken;
    forall r | 0 <= r < |turns[1..]| - 1 ensures Turn(history, turns[1..][r]) == Projected(SameRun(events, keys[1..][r])) {
      assert turns[1..][r] == turns[r + 1] && keys[1..][r] == keys[r + 1];
    }
  }

  // ---------------------------------------------------------------------------
  // The replay of a snapshot that is behind
  // ---------------------------------------------------------------------------

  // The history when the log was `log`: each run's turn as mirrored then (with any direct
  // turns before and between them), the last one at the end.
  ghost predicate Snapshot(history: seq<HistoryMessage>, log: seq<SubSessionEvent>, turns: seq<nat>) {
    && |turns| == |RunKeys(log)| && turns != []
    && (forall r :: 0 <= r < |turns| ==>
          && turns[r] < |history| && history[turns[r]].role == USER
          && Turn(history, turns[r]) == Coalesce(Mirrored(log, RunKeys(log)[r])))
    && (forall q, r :: 0 <= q < r < |turns| ==> turns[q] < turns[r])
    && TurnEnd(history, turns[|turns| - 1]) == |history|
  }

  lemma {:induction false} OneThreadBefore(earlier: seq<SubSessionEvent>, more: seq<SubSessionEvent>)
    requires OneThreadPerRunId(earlier + more)
    ensures OneThreadPerRunId(earlier)
  {
    if more == [] {
      assert earlier + more == earlier;
    } else {
      var front := more[..|more| - 1];
      assert earlier + more == earlier + front + [more[|more| - 1]];
      OneThreadStays(earlier + front, more[|more| - 1]);
      OneThreadBefore(earlier, front);
    }
  }

  lemma SnapshotIsBehind(history: seq<HistoryMessage>, earlier: seq<SubSessionEvent>, more: seq<SubSessionEvent>,
                         turns: seq<nat>) returns (mirrored: seq<Part>, tail: seq<Part>)
    requires Snapshot(history, earlier, turns)
    requires Sequential(earlier + more) && StartsRuns(earlier + more) && OneThreadPerRunId(earlier + more)
    ensures BehindBy(history, earlier + more, RunKeys(earlier + more), turns, mirrored, tail)
    ensures tail + AllMessages(earlier + more, RunKeys(earlier + more)[|turns|..])
         == MirroredSince(earlier + more, |earlier|)
    ensures
      var active := RunKeys(earlier + more)[|turns| - 1];
      Mirrored(earlier + more, active) == Mirrored(earlier, active) + tail
  {
    hide Turn, TurnEnd, SameRun, RunMessages, Coalesce, Mirrored, RunKeys, Sequential, StartsRuns, OneThreadPerRunId,
         AllMessages, MirroredSince, Spoken;
    var log, keys := earlier + more, RunKeys(earlier);
    tail := LogGrows(earlier, more);
    OneThreadBefore(earlier, more);
    var active := keys[|keys| - 1];
    mirrored := RunMessages(SameRun(earlier, active));
    ProjectionIsMirrored(earlier, active);
    ProjectionIsMirrored(log, active);
    forall r | 0 <= r < |turns| ensures RunKeys(log)[r] == keys[r] {
      assert RunKeys(log)[..|keys|][r] == keys[r];
    }
    forall r | 0 <= r < |turns| - 1 ensures Turn(history, turns[r]) == Projected(SameRun(log, RunKeys(log)[r])) {
      ProjectionIsMirrored(earlier, keys[r]);
    }
  }

  // If the active run's turn is found where it stands, the replay shows the history as
  // it will be once everything in the log is mirrored.
  lemma CaughtUp(history: seq<HistoryMessage>, earlier: seq<SubSessionEvent>, more: seq<SubSessionEvent>, turns: seq<nat>)
    requires Snapshot(history, earlier, turns)
    requires Sequential(earlier + more) && StartsRuns(earlier + more) && OneThreadPerRunId(earlier + more)
    requires |turns| <= |RunKeys(earlier + more)|
    requires Cuts(history, 0, Runs(earlier + more))[|turns| - 1] == Some(turns[|turns| - 1])
    ensures Coalesce(Shown(Merge(history, earlier + more)))
         == Coalesce(Parts(history) + MirroredSince(earlier + more, |earlier|))
  {
    hide Snapshot, BehindBy, Sequential, StartsRuns, OneThreadPerRunId, RunKeys, Shown, Cuts, MergeFrom, AllMessages,
         MirroredSince, Parts, SameRun, PushAll;
    var log := earlier + more;
    var mirrored, tail := SnapshotIsBehind(history, earlier, more, turns);
    forall k ensures SameRun(EventsOf([]), k) == [] {
      EmptyRun(k);
    }
    FirstTurn(history, log, RunKeys(log), turns, mirrored, tail);
    ShownAhead([], history, 0, log, RunKeys(log), turns, mirrored, tail);
    assert [] + Merge(history, log) == Merge(history, log);
    NothingCoalesced();
    assert history[0..] == history;
    ShownNothing();
  }

  lemma FirstTurn(history: seq<HistoryMessage>, events: seq<SubSessionEvent>, keys: seq<RunKey>, turns: seq<nat>,
                  mirrored: seq<Part>, tail: seq<Part>)
    requires BehindBy(history, events, keys, turns, mirrored, tail)
    ensures turns != []
  {
  }

  lemma NothingCoalesced()
    ensures Coalesce([]) == []
  {
  }

  // ---------------------------------------------------------------------------
  // When that is
  // ---------------------------------------------------------------------------

  // Where the search for run `k` begins.
  function SearchFrom(history: seq<HistoryMessage>, cursor: nat, cuts: seq<Option<nat>>, k: nat): nat
    requires k <= |cuts|
  {
    if k == 0 then cursor
    else if cuts[k - 1].Some? && cuts[k - 1].value < |history| then TurnEnd(history, cuts[k - 1].value)
    else cursor
  }

  // The runs before the active one are replaced by turns with the same text, and the
  // active one is then found at its own turn or before it.
  ghost predicate CutsUpTo(history: seq<HistoryMessage>, cursor: nat, events: seq<SubSessionEvent>, keys: seq<RunKey>,
                           turns: seq<nat>)
    requires 1 <= |turns| <= |keys| && cursor <= |history|
  {
    var cuts, k := Cuts(history, cursor, RunsOf(events, keys)), |turns| - 1;
    var from := SearchFrom(history, cursor, cuts, k);
    && (forall r :: 0 <= r < k ==>
          cuts[r].Some? && cuts[r].value < |history|
          && Turn(history, cuts[r].value) == Projected(SameRun(events, keys[r])))
    && from <= turns[k] < |history|
    && cuts[k] == FindMatch(history, Projected(SameRun(events, keys[k])), from) && cuts[k].Some?
    && from <= cuts[k].value <= turns[k]
  }

  lemma {:induction false} CutsAreUpTo(history: seq<HistoryMessage>, cursor: nat, events: seq<SubSessionEvent>,
                                       keys: seq<RunKey>, turns: seq<nat>, mirrored: seq<Part>, tail: seq<Part>)
    requires BehindBy(history, events, keys, turns, mirrored, tail) && cursor <= turns[0]
    ensures CutsUpTo(history, cursor, events, keys, turns)
    decreases |keys|
  {
    hide SameRun, FindMatch, NextUser, Turn, Projected, BehindBy, CutsUpTo, Cuts;
    FirstTurn(history, events, keys, turns, mirrored, tail);
    TurnsAreTurns(history, events, keys, turns, mirrored, tail);
    var runs := RunsOf(events, keys);
    assert runs[1..] == RunsOf(events, keys[1..]);
    if |turns| == 1 {
      LastTurnMatches(history, events, keys, turns, mirrored, tail);
      OnlyCut(history, cursor, events, keys, turns);
    } else {
      FirstTurnIsExact(history, cursor, Projected(runs[0]), turns[0], turns[1]);
      var found := FindMatch(history, Projected(runs[0]), cursor);
      var next := TurnEnd(history, found.value);
      BehindStays(history, events, keys, turns, mirrored, tail);
      CutsAreUpTo(history, next, events, keys[1..], turns[1..], mirrored, tail);
      CutsGoOn(history, cursor, events, keys, turns);
    }
  }

  lemma OnlyCut(history: seq<HistoryMessage>, cursor: nat, events: seq<SubSessionEvent>, keys: seq<RunKey>, turns: seq<nat>)
    requires 1 == |turns| <= |keys| && cursor <= turns[0] < |history|
    requires Matches(history, Projected(SameRun(events, keys[0])), turns[0])
    ensures CutsUpTo(history, cursor, events, keys, turns)
  {
    hide SameRun, Turn, Projected, Matches;
  }

  lemma CutsGoOn(history: seq<HistoryMessage>, cursor: nat, events: seq<SubSessionEvent>, keys: seq<RunKey>, turns: seq<nat>)
    requires 1 < |turns| <= |keys| && cursor <= |history|
    requires
      var found := FindMatch(history, Projected(SameRun(events, keys[0])), cursor);
      && found.Some? && Turn(history, found.value) == Projected(SameRun(events, keys[0]))
      && CutsUpTo(history, TurnEnd(history, found.value), events, keys[1..], turns[1..])
    ensures CutsUpTo(history, cursor, events, keys, turns)
  {
    hide SameRun, FindMatch, NextUser, TurnEnd, Turn, Projected;
    var runs, k := RunsOf(events, keys), |turns| - 1;
    assert runs[1..] == RunsOf(events, keys[1..]);
    var found := FindMatch(history, Projected(runs[0]), cursor);
    var next := TurnEnd(history, found.value);
    var cuts, rest := Cuts(history, cursor, runs), Cuts(history, next, runs[1..]);
    assert cuts == [found] + rest;
    assert turns[1..][k - 1] == turns[k] && keys[1..][k - 1] == keys[k];
    forall r | 0 <= r < k
      ensures cuts[r].Some? && cuts[r].value < |history|
           && Turn(history, cuts[r].value) == Projected(SameRun(events, keys[r]))
    {
      if r > 0 {
        assert cuts[r] == rest[r - 1] && keys[r] == keys[1..][r - 1];
      }
    }
    assert SearchFrom(history, cursor, cuts, k) == SearchFrom(history, next, rest, k - 1);
  }

  lemma TurnsAreTurns(history: seq<HistoryMessage>, events: seq<SubSessionEvent>, keys: seq<RunKey>, turns: seq<nat>,
                      mirrored: seq<Part>, tail: seq<Part>)
    requires BehindBy(history, events, keys, turns, mirrored, tail)
    ensures 1 <= |turns| <= |keys|
    ensures forall r :: 0 <= r < |turns| ==> turns[r] < |history| && history[turns[r]].role == USER
    ensures forall q, r :: 0 <= q < r < |turns| ==> turns[q] < turns[r]
    ensures |turns| > 1 ==> Turn(history, turns[0]) == Projected(SameRun(events, keys[0]))
  {
  }

  // An earlier turn in reach that already reads like a given run.
  ghost predicate Twin(history: seq<HistoryMessage>, from: nat, turn: nat, projected: seq<Part>) {
    exists i :: from <= i < turn && i < |history| && history[i].role == USER && Turn(history, i) == projected
  }

  lemma FoundUnlessTwin(history: seq<HistoryMessage>, from: nat, turn: nat, projected: seq<Part>)
    requires from <= turn < |history| && Matches(history, projected, turn)
    ensures FindMatch(history, projected, from) == Some(turn) <==> !Twin(history, from, turn, projected)
    ensures Twin(history, from, turn, projected) ==>
      Turn(history, FindMatch(history, projected, from).value) == projected
  {
    hide Turn;
    var found := FindMatch(history, projected, from);
    if i :| from <= i < turn && i < |history| && history[i].role == USER && Turn(history, i) == projected {
      TurnStartsWithUser(history, i);
      assert Matches(history, projected, i);
    }
    if found.value < turn {
      assert TurnEnd(history, found.value) <= turn;
    }
  }

  function TextSize(parts: seq<Part>): nat {
    if parts == [] then 0 else TextSize(parts[..|parts| - 1]) + |parts[|parts| - 1].text|
  }

  lemma {:induction false} PushAllSize(parts: seq<Part>, more: seq<Part>)
    ensures TextSize(PushAll(parts, more)) == TextSize(parts) + TextSize(more)
  {
    if more != [] {
      PushAllSize(parts, more[..|more| - 1]);
      PushSize(PushAll(parts, more[..|more| - 1]), more[|more| - 1]);
    }
  }

  lemma PushSize(parts: seq<Part>, part: Part)
    ensures TextSize(Push(parts, part)) == TextSize(parts) + |part.text|
  {
    var n := |parts|;
    if n > 0 && parts[n - 1].role == part.role {
      assert Push(parts, part)[..n - 1] == parts[..n - 1];
    } else {
      assert Push(parts, part)[..n] == parts;
    }
  }

  lemma CoalescedSize(parts: seq<Part>)
    ensures TextSize(Coalesce(parts)) == TextSize(parts)
  {
    PushAllSize([], parts);
  }

  lemma {:induction false} ConcatSize(a: seq<Part>, b: seq<Part>)
    ensures TextSize(a + b) == TextSize(a) + TextSize(b)
  {
    if b == [] {
      assert a + b == a;
    } else {
      assert (a + b)[..|a + b| - 1] == a + b[..|b| - 1];
      ConcatSize(a, b[..|b| - 1]);
    }
  }

  // The first `n` runs are replaced by turns with the same text.
  ghost predicate ExactUpTo(history: seq<HistoryMessage>, events: seq<SubSessionEvent>, keys: seq<RunKey>,
                            cuts: seq<Option<nat>>, n: nat)
  {
    && n <= |keys| == |cuts|
    && forall r :: 0 <= r < n ==>
         cuts[r].Some? && cuts[r].value < |history| && Turn(history, cuts[r].value) == Projected(SameRun(events, keys[r]))
  }

  // Such runs add nothing to the text, and others no more than what they said.
  lemma {:induction false} ShownAtMost(pre: seq<HistoryReplayItem>, history: seq<HistoryMessage>, cursor: nat,
                                       events: seq<SubSessionEvent>, keys: seq<RunKey>, n: nat)
    requires cursor <= |history| && n <= |keys|
    requires forall i, j :: 0 <= i < j < |keys| ==> keys[i] != keys[j]
    requires forall k :: k in keys ==> SameRun(EventsOf(pre), k) == []
    requires ExactUpTo(history, events, keys, Cuts(history, cursor, RunsOf(events, keys)), n)
    ensures TextSize(Shown(pre + MergeFrom(history, cursor, RunsOf(events, keys))))
         <= TextSize(Shown(pre)) + TextSize(Parts(history[cursor..])) + TextSize(AllMessages(events, keys[n..]))
    decreases |keys|
  {
    hide TextSize, Parts, Shown, EventsOf, SameRun, RunMessages, AsMessages, AsEvents, FindMatch, NextUser, AllMessages,
         Turn, Projected, ExactUpTo, Cuts;
    var runs := RunsOf(events, keys);
    if keys == [] {
      ShownMessages(pre, history[cursor..]);
      ConcatSize(Shown(pre), Parts(history[cursor..]));
    } else {
      assert runs[1..] == RunsOf(events, keys[1..]);
      var found := FindMatch(history, Projected(runs[0]), cursor);
      var start, next := CopyUntil(cursor, found), ResumeAt(history, cursor, found);
      var pre' := pre + AsMessages(history[cursor..start]) + AsEvents(runs[0]);
      AppendAll(pre, AsMessages(history[cursor..start]), AsEvents(runs[0]), MergeFrom(history, next, runs[1..]));
      ShownBlock(pre, history[cursor..start], events, keys[0]);
      var n' := if n == 0 then 0 else n - 1;
      ExactStays(history, cursor, events, keys, n);
      ShownAtMost(pre', history, next, events, keys[1..], n');
      BlockSize(history, cursor, start, next, Shown(pre), RunMessages(runs[0]));
      if n == 0 {
        AllMessagesCons(events, keys);
        ConcatSize(RunMessages(runs[0]), AllMessages(events, keys[1..]));
        assert keys[0..] == keys && keys[1..][0..] == keys[1..];
      } else {
        ExactTurnSize(history, start, runs[0]);
        assert keys[1..][n - 1..] == keys[n..];
      }
    }
  }

  lemma ExactStays(history: seq<HistoryMessage>, cursor: nat, events: seq<SubSessionEvent>, keys: seq<RunKey>, n: nat)
    requires cursor <= |history| && keys != []
    requires ExactUpTo(history, events, keys, Cuts(history, cursor, RunsOf(events, keys)), n)
    ensures
      var found := FindMatch(history, Projected(SameRun(events, keys[0])), cursor);
      && (n > 0 ==> found.Some? && Turn(history, found.value) == Projected(SameRun(events, keys[0])))
      && ExactUpTo(history, events, keys[1..],
                   Cuts(history, ResumeAt(history, cursor, found), RunsOf(events, keys[1..])), if n == 0 then 0 else n - 1)
  {
    hide Turn, Projected, SameRun, FindMatch, NextUser;
    var runs := RunsOf(events, keys);
    assert runs[1..] == RunsOf(events, keys[1..]);
    var found := FindMatch(history, Projected(runs[0]), cursor);
    var rest := Cuts(history, ResumeAt(history, cursor, found), runs[1..]);
    assert Cuts(history, cursor, runs) == [found] + rest;
    assert forall r :: 0 <= r < |rest| ==> ([found] + rest)[r + 1] == rest[r] && keys[1..][r] == keys[r + 1];
  }

  lemma BlockSize(history: seq<HistoryMessage>, cursor: nat, start: nat, next: nat, shown: seq<Part>, run: seq<Part>)
    requires cursor <= start <= next <= |history|
    ensures TextSize(shown + Parts(history[cursor..start]) + run) + TextSize(Parts(history[next..]))
         == TextSize(shown) + TextSize(Parts(history[cursor..])) + TextSize(run) - TextSize(Parts(history[start..next]))
  {
    hide TextSize, Parts;
    assert history[cursor..] == history[cursor..|history|] && history[next..] == history[next..|history|];
    PartsSplit(history, cursor, start, |history|);
    PartsSplit(history, start, next, |history|);
    ConcatSize(Parts(history[cursor..start]), Parts(history[start..|history|]));
    ConcatSize(Parts(history[start..next]), Parts(history[next..|history|]));
    ConcatSize(shown + Parts(history[cursor..start]), run);
    ConcatSize(shown, Parts(history[cursor..start]));
  }

  lemma ExactTurnSize(history: seq<HistoryMessage>, start: nat, run: seq<SubSessionEvent>)
    requires start < |history| && Turn(history, start) == Projected(run)
    ensures TextSize(Parts(history[start..TurnEnd(history, start)])) == TextSize(RunMessages(run))
  {
    CoalescedSize(Parts(history[start..TurnEnd(history, start)]));
    CoalescedSize(RunMessages(run));
  }

  // What the active run said since is then nowhere.
  lemma NotCaughtUp(history: seq<HistoryMessage>, events: seq<SubSessionEvent>, n: nat, tail: seq<Part>, added: seq<Part>)
    requires n <= |RunKeys(events)| && Spoken(tail) && tail != []
    requires ExactUpTo(history, events, RunKeys(events), Cuts(history, 0, Runs(events)), n)
    requires added == tail + AllMessages(events, RunKeys(events)[n..])
    ensures Coalesce(Shown(Merge(history, events))) != Coalesce(Parts(history) + added)
  {
    hide TextSize, Shown, MergeFrom, Cuts, Parts, SameRun, AllMessages, Coalesce, ExactUpTo, Spoken, RunKeys;
    forall k ensures SameRun(EventsOf([]), k) == [] {
      EmptyRun(k);
    }
    ShownAtMost([], history, 0, events, RunKeys(events), n);
    assert [] + Merge(history, events) == Merge(history, events) && history[0..] == history;
    ShownNothing();
    NoSize();
    CoalescedSize(Shown(Merge(history, events)));
    CoalescedSize(Parts(history) + added);
    ConcatSize(Parts(history), added);
    ConcatSize(tail, AllMessages(events, RunKeys(events)[n..]));
    SpeechHasSize(tail);
  }

  lemma NoSize()
    ensures TextSize([]) == 0
  {
  }

  lemma SpeechHasSize(tail: seq<Part>)
    requires Spoken(tail) && tail != []
    ensures TextSize(tail) > 0
  {
  }

  // A log that got ahead of the snapshot of the history is replayed with exactly the
  // text the history will have once the log is mirrored, unless an earlier turn in
  // reach already reads like the whole of the active run: the search then takes that
  // turn, and what the active run said since the snapshot is missing.
  lemma ReplayCatchesUp(history: seq<HistoryMessage>, earlier: seq<SubSessionEvent>, more: seq<SubSessionEvent>,
                        turns: seq<nat>)
    requires Snapshot(history, earlier, turns)
    requires Sequential(earlier + more) && StartsRuns(earlier + more) && OneThreadPerRunId(earlier + more)
    ensures |turns| <= |RunKeys(earlier + more)|
    ensures
      var log, k := earlier + more, |turns| - 1;
      var active := RunKeys(log)[k];
      var from := SearchFrom(history, 0, Cuts(history, 0, Runs(log)), k);
      var twin := Twin(history, from, turns[k], Projected(SameRun(log, active)));
      var caughtUp := Coalesce(Shown(Merge(history, log))) == Coalesce(Parts(history) + MirroredSince(log, |earlier|));
      && (!twin ==> caughtUp)
      && (Mirrored(log, active) != Mirrored(earlier, active) ==> (caughtUp <==> !twin))
  {
    hide Snapshot, BehindBy, CutsUpTo, Sequential, StartsRuns, OneThreadPerRunId, RunKeys, Shown, Cuts, Merge, Parts,
         MirroredSince, SameRun, Twin, Coalesce, FindMatch, Projected, SearchFrom, AllMessages, Mirrored, ExactUpTo;
    var log, k := earlier + more, |turns| - 1;
    var mirrored, tail := SnapshotIsBehind(history, earlier, more, turns);
    var keys, cuts := RunKeys(log), Cuts(history, 0, Runs(log));
    TurnsAreTurns(history, log, keys, turns, mirrored, tail);
    CutsAreUpTo(history, 0, log, keys, turns, mirrored, tail);
    LastTurnMatches(history, log, keys, turns, mirrored, tail);
    var from := LastCut(history, log, keys, turns);
    FoundUnlessTwin(history, from, turns[k], Projected(SameRun(log, keys[k])));
    if cuts[k] == Some(turns[k]) {
      CaughtUp(history, earlier, more, turns);
    } else if Mirrored(log, keys[k]) != Mirrored(earlier, keys[k]) {
      TwinIsExact(history, log, turns);
      SpokenTail(history, log, keys, turns, mirrored, tail);
      NotCaughtUp(history, log, |turns|, tail, MirroredSince(log, |earlier|));
    }
  }

  lemma SpokenTail(history: seq<HistoryMessage>, events: seq<SubSessionEvent>, keys: seq<RunKey>, turns: seq<nat>,
                   mirrored: seq<Part>, tail: seq<Part>)
    requires BehindBy(history, events, keys, turns, mirrored, tail)
    ensures Spoken(tail)
  {
  }

  lemma {:induction false} LastCut(history: seq<HistoryMessage>, log: seq<SubSessionEvent>, keys: seq<RunKey>, turns: seq<nat>)
    returns (from: nat)
    requires 1 <= |turns| <= |keys|
    ensures from == SearchFrom(history, 0, Cuts(history, 0, RunsOf(log, keys)), |turns| - 1)
    ensures CutsUpTo(history, 0, log, keys, turns) ==>
      var cuts, k := Cuts(history, 0, RunsOf(log, keys)), |turns| - 1;
      && from <= turns[k] < |history|
      && cuts[k] == FindMatch(history, Projected(SameRun(log, keys[k])), from)
  {
    from := SearchFrom(history, 0, Cuts(history, 0, RunsOf(log, keys)), |turns| - 1);
  }

  lemma TwinIsExact(history: seq<HistoryMessage>, log: seq<SubSessionEvent>, turns: seq<nat>)
    requires 1 <= |turns| <= |RunKeys(log)| && CutsUpTo(history, 0, log, RunKeys(log), turns)
    requires
      var cut := Cuts(history, 0, Runs(log))[|turns| - 1];
      cut.Some? ==> cut.value < |history| && Turn(history, cut.value) == Projected(SameRun(log, RunKeys(log)[|turns| - 1]))
    ensures ExactUpTo(history, log, RunKeys(log), Cuts(history, 0, Runs(log)), |turns|)
  {
    hide Turn, Projected, SameRun, FindMatch, Cuts, RunKeys, SearchFrom, TurnEnd;
  }

  // ---------------------------------------------------------------------------
  // A conversation that is not caught up
  // ---------------------------------------------------------------------------

  const REPEATED: seq<HistoryMessage> := [
    HistoryMessage("1", USER, "q"), HistoryMessage("2", ASSISTANT, "ab"),
    HistoryMessage("3", USER, "q"), HistoryMessage("4", ASSISTANT, "a")]

  function RunEvent(event: ProtocolEvent): SubSessionEvent {
    SubSessionEvent("thread", "run", "agent", None, event)
  }

  lemma {:induction false} OneRun(log: seq<SubSessionEvent>)
    requires log != [] && log[0].event.RunStart?
    requires forall i :: 0 <= i < |log| ==> Key(log[i]) == ("thread", "run")
    requires forall i :: 1 <= i < |log| ==> log[i].event.Delta?
    ensures RunKeys(log) == [("thread", "run")] && SameRun(log, ("thread", "run")) == log
    ensures Sequential(log) && StartsRuns(log)
  {
    hide RunKeys, SameRun, Sequential, StartsRuns;
    var front, last := log[..|log| - 1], log[|log| - 1];
    assert log == front + [last];
    SnocEvent(front, last);
    SnocRun(front, last, ("thread", "run"));
    if |log| > 1 {
      OneRun(front);
    } else {
      NothingLogged();
    }
  }

  lemma NothingLogged()
    ensures RunKeys([]) == [] && SameRun([], ("thread", "run")) == [] && Sequential([]) && StartsRuns([])
  {
  }

  lemma Said(log: seq<SubSessionEvent>, event: SubSessionEvent, parts: seq<Part>, message: Part)
    requires RunMessages(log) == parts && HistoryMessages(event) == [message] && !event.event.Custom?
    ensures RunMessages(log + [event]) == parts + [message]
    ensures Projected(log + [event]) == Push(Coalesce(parts), message)
  {
    hide Push;
    RunMessagesSnoc(log, event);
    assert (parts + [message])[..|parts|] == parts;
  }

  lemma Asked()
    ensures RunMessages([RunEvent(RunStart(Some("q")))]) == [Part(USER, "q")]
    ensures Coalesce([Part(USER, "q")]) == [Part(USER, "q")]
  {
    var event := RunEvent(RunStart(Some("q")));
    assert Trim("q") == "q";
    assert [event][..0] == [] && [Part(USER, "q")][..0] == [];
    NoMessages();
    Said([], event, [], Part(USER, "q"));
    assert [] + [event] == [event];
  }

  lemma NothingSince(log: seq<SubSessionEvent>)
    ensures MirroredSince(log, |log|) == []
  {
  }

  // What the run had said when the history was read, and what it has said since.
  lemma SaidSoFar(start: SubSessionEvent, one: SubSessionEvent, two: SubSessionEvent)
    requires start == RunEvent(RunStart(Some("q"))) && one == RunEvent(Delta("a")) && two == RunEvent(Delta("b"))
    ensures Projected([start, one]) == [Part(USER, "q"), Part(ASSISTANT, "a")]
    ensures Projected([start, one, two]) == [Part(USER, "q"), Part(ASSISTANT, "ab")]
    ensures MirroredSince([start, one, two], 2) == [Part(ASSISTANT, "b")]
  {
    hide RunMessages, MirroredSince, Projected;
    NothingSince([start, one]);
    var q, a, b := Part(USER, "q"), Part(ASSISTANT, "a"), Part(ASSISTANT, "b");
    Asked();
    assert [start] + [one] == [start, one] && [start, one] + [two] == [start, one, two];
    Said([start], one, [q], a);
    Said([start, one], two, [q] + [a], b);
    assert ([q] + [a])[..1] == [q];
    assert Coalesce([q] + [a]) == Push(Coalesce([q]), a);
    assert "a" + "b" == "ab";
    MirroredSnoc([start, one], two, 2);
  }

  lemma TurnsOfRepeated()
    ensures TurnEnd(REPEATED, 0) == 2 && Turn(REPEATED, 0) == [Part(USER, "q"), Part(ASSISTANT, "ab")]
    ensures TurnEnd(REPEATED, 2) == 4 && Turn(REPEATED, 2) == [Part(USER, "q"), Part(ASSISTANT, "a")]
  {
    assert NextUser(REPEATED, 2) == 2 && NextUser(REPEATED, 1) == 2;
    assert NextUser(REPEATED, 4) == 4 && NextUser(REPEATED, 3) == 4;
    TwoParts(REPEATED[0], REPEATED[1]);
    TwoParts(REPEATED[2], REPEATED[3]);
    assert REPEATED[0..2] == [REPEATED[0], REPEATED[1]] && REPEATED[2..4] == [REPEATED[2], REPEATED[3]];
  }

  lemma TwoParts(question: HistoryMessage, answer: HistoryMessage)
    requires question.role == USER && answer.role == ASSISTANT
    ensures Coalesce(Parts([question, answer])) == [Part(USER, question.text), Part(ASSISTANT, answer.text)]
  {
    var parts := Parts([question, answer]);
    assert parts[..1] == [parts[0]] && parts[..1][..0] == [];
    assert PushAll([], parts[..1]) == [parts[0]];
    assert Coalesce(parts) == Push([parts[0]], parts[1]);
  }

  lemma RepeatedLog(earlier: seq<SubSessionEvent>, more: seq<SubSessionEvent>)
    requires earlier == [RunEvent(RunStart(Some("q"))), RunEvent(Delta("a"))] && more == [RunEvent(Delta("b"))]
    ensures RunKeys(earlier) == RunKeys(earlier + more) == [("thread", "run")]
    ensures SameRun(earlier, ("thread", "run")) == earlier && SameRun(earlier + more, ("thread", "run")) == earlier + more
    ensures Sequential(earlier + more) && StartsRuns(earlier + more)
    ensures Projected(earlier) == [Part(USER, "q"), Part(ASSISTANT, "a")]
    ensures Projected(earlier + more) == [Part(USER, "q"), Part(ASSISTANT, "ab")]
    ensures MirroredSince(earlier + more, |earlier|) == [Part(ASSISTANT, "b")]
  {
    hide RunKeys, SameRun, Sequential, StartsRuns, Projected, MirroredSince;
    OneRun(earlier);
    OneRun(earlier + more);
    assert earlier + more == [earlier[0], earlier[1], more[0]];
    SaidSoFar(earlier[0], earlier[1], more[0]);
  }

  // The same question is answered "ab" directly, and again by a run that had said "a"
  // when the history was read and has said "b" since: the replay never shows that "b".
  lemma RepeatedAnswerIsLost(earlier: seq<SubSessionEvent>, more: seq<SubSessionEvent>)
    requires earlier == [RunEvent(RunStart(Some("q"))), RunEvent(Delta("a"))] && more == [RunEvent(Delta("b"))]
    ensures Snapshot(REPEATED, earlier, [2])
    ensures Sequential(earlier + more) && StartsRuns(earlier + more) && OneThreadPerRunId(earlier + more)
    ensures Coalesce(Shown(Merge(REPEATED, earlier + more)))
         != Coalesce(Parts(REPEATED) + MirroredSince(earlier + more, |earlier|))
  {
    assert OneThreadPerRunId(earlier) && OneThreadPerRunId(earlier + more);
    hide *;
    RepeatedLog(earlier, more);
    RepeatedSnapshot(earlier);
    RepeatedTwin(earlier + more, ("thread", "run"));
    ReplayCatchesUp(REPEATED, earlier, more, [2]);
  }

  lemma {:induction false} RepeatedSnapshot(earlier: seq<SubSessionEvent>)
    requires RunKeys(earlier) == [("thread", "run")] && OneThreadPerRunId(earlier)
    requires SameRun(earlier, ("thread", "run")) == earlier
    requires Projected(earlier) == [Part(USER, "q"), Part(ASSISTANT, "a")]
    ensures Snapshot(REPEATED, earlier, [2])
  {
    TurnsOfRepeated();
    ProjectionIsMirrored(earlier, ("thread", "run"));
    hide Turn, TurnEnd, Projected, RunKeys, SameRun, Mirrored, Coalesce, OneThreadPerRunId;
  }

  lemma RepeatedTwin(log: seq<SubSessionEvent>, key: RunKey)
    requires SameRun(log, key) == log && Projected(log) == [Part(USER, "q"), Part(ASSISTANT, "ab")]
    ensures SearchFrom(REPEATED, 0, Cuts(REPEATED, 0, Runs(log)), 0) == 0
    ensures Twin(REPEATED, 0, 2, Projected(SameRun(log, key)))
  {
    TurnsOfRepeated();
    hide Turn, TurnEnd, Projected, SameRun, Cuts, RunKeys;
    assert REPEATED[0].role == USER;
  }
}
