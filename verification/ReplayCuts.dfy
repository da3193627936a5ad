/** What a replay may leave out (`merge_history_with_events` in `src/sub_session.rs`).

A run replaces a turn of the history only if the turn says what the run says: the same
speakers in the same order, and the same text, of which the active last turn may have
the beginning only. All other messages stay.
*/
module ReplayCuts {
  import opened Text
  import opened SubSession
  import opened SubSessionReplay

  // What is said, one character after another, and by whom.
  function Spelled(parts: seq<Part>): seq<(string, char)> {
    if parts == [] then []
    else
      var last := parts[|parts| - 1];
      Spelled(parts[..|parts| - 1]) + seq(|last.text|, i requires 0 <= i < |last.text| => (last.role, last.text[i]))
  }

  // Who speaks, at each change of speaker.
  function Speakers(parts: seq<Part>): seq<string> {
    if parts == [] then []
    else
      var front, role := Speakers(parts[..|parts| - 1]), parts[|parts| - 1].role;
      if front != [] && front[|front| - 1] == role then front else front + [role]
  }

  lemma OneMorePart(parts: seq<Part>, part: Part)
    ensures Spelled(parts + [part])
         == Spelled(parts) + seq(|part.text|, i requires 0 <= i < |part.text| => (part.role, part.text[i]))
    ensures Speakers(parts + [part]) ==
      if Speakers(parts) != [] && Speakers(parts)[|Speakers(parts)| - 1] == part.role then Speakers(parts)
      else Speakers(parts) + [part.role]
  {
    assert (parts + [part])[..|parts|] == parts;
  }

  lemma PushSpells(parts: seq<Part>, part: Part)
    ensures Spelled(Push(parts, part)) == Spelled(parts + [part])
  {
    hide Spelled;
    var n := |parts|;
    if n > 0 && parts[n - 1].role == part.role {
      JoinedSpells(parts[..n - 1], part.role, parts[n - 1].text, part.text);
      assert parts == parts[..n - 1] + [Part(part.role, parts[n - 1].text)];
    }
  }

  lemma JoinedSpells(parts: seq<Part>, role: string, t: string, u: string)
    ensures Spelled(parts + [Part(role, t + u)]) == Spelled(parts + [Part(role, t)] + [Part(role, u)])
  {
    hide Spelled;
    OneMorePart(parts, Part(role, t + u));
    OneMorePart(parts, Part(role, t));
    OneMorePart(parts + [Part(role, t)], Part(role, u));
    var tu := t + u;
    assert seq(|tu|, i requires 0 <= i < |tu| => (role, tu[i]))
        == seq(|t|, i requires 0 <= i < |t| => (role, t[i])) + seq(|u|, i requires 0 <= i < |u| => (role, u[i]));
  }

  ghost predicate OneEach(parts: seq<Part>, speakers: seq<string>) {
    |parts| == |speakers| && forall i :: 0 <= i < |parts| ==> parts[i].role == speakers[i]
  }

  lemma PushIsOneEach(parts: seq<Part>, part: Part, speakers: seq<string>)
    requires OneEach(parts, speakers)
    ensures OneEach(Push(parts, part),
      if speakers != [] && speakers[|speakers| - 1] == part.role then speakers else speakers + [part.role])
  {
  }

  // Joining neighbours changes neither, and leaves one part for each speaker.
  lemma {:induction false} CoalesceSpells(parts: seq<Part>)
    ensures Spelled(Coalesce(parts)) == Spelled(parts)
    ensures OneEach(Coalesce(parts), Speakers(parts))
  {
    hide Spelled, Speakers, Push, OneEach;
    if parts == [] {
      SpelledNothing();
    } else {
      var front, last := parts[..|parts| - 1], parts[|parts| - 1];
      assert parts == front + [last];
      CoalesceSpells(front);
      PushSpells(Coalesce(front), last);
      PushIsOneEach(Coalesce(front), last, Speakers(front));
      OneMorePart(Coalesce(front), last);
      OneMorePart(front, last);
    }
  }

  lemma SpelledSnoc(parts: seq<Part>, n: nat)
    requires n < |parts|
    ensures Spelled(parts[..n + 1])
         == Spelled(parts[..n]) + seq(|parts[n].text|, i requires 0 <= i < |parts[n].text| => (parts[n].role, parts[n].text[i]))
  {
    assert parts[..n + 1][..n] == parts[..n];
  }

  lemma {:induction false} SpelledPrefix(parts: seq<Part>, n: nat)
    requires n <= |parts|
    ensures Spelled(parts[..n]) <= Spelled(parts)
    decreases |parts| - n
  {
    hide Spelled;
    if n < |parts| {
      SpelledSnoc(parts, n);
      SpelledPrefix(parts, n + 1);
    } else {
      assert parts[..n] == parts;
    }
  }

  lemma ActivePrefixSpells(actual: seq<Part>, projected: seq<Part>)
    requires ActivePrefix(actual, projected)
    ensures Spelled(actual) <= Spelled(projected)
  {
    hide Spelled;
    var n := |actual|;
    if n == 0 {
      SpelledNothing();
    } else {
      assert actual[..n - 1] == projected[..n - 1] by {
        forall i | 0 <= i < n - 1 ensures actual[i] == projected[i] {
        }
      }
      assert actual[..n] == actual;
      SpelledSnoc(actual, n - 1);
      SpelledSnoc(projected, n - 1);
      SpelledPrefix(projected, n);
      var a, p := actual[n - 1], projected[n - 1];
      assert seq(|a.text|, i requires 0 <= i < |a.text| => (a.role, a.text[i]))
          <= seq(|p.text|, i requires 0 <= i < |p.text| => (p.role, p.text[i]));
    }
  }

  lemma SpelledNothing()
    ensures Spelled([]) == [] && Speakers([]) == [] && OneEach([], [])
  {
  }

  // A message of the user and all that follows it up to the user's next one.
  ghost predicate IsTurn(history: seq<HistoryMessage>, start: nat, end: nat) {
    && start < end <= |history| && history[start].role == "user"
    && (forall i :: start < i < end ==> history[i].role != "user")
    && (end < |history| ==> history[end].role == "user")
  }

  // The turn says the beginning of what the run says, and all of it but at the end of
  // the history.
  ghost predicate SaysTheSame(turn: seq<HistoryMessage>, run: seq<SubSessionEvent>, isLast: bool) {
    var said, all := Parts(turn), RunMessages(run);
    && Spelled(said) <= Spelled(all) && Speakers(said) <= Speakers(all)
    && (!isLast ==> Spelled(said) == Spelled(all) && Speakers(said) == Speakers(all))
  }

  lemma MatchesSaySame(history: seq<HistoryMessage>, run: seq<SubSessionEvent>, start: nat)
    requires start < |history| && Matches(history, Projected(run), start)
    ensures IsTurn(history, start, TurnEnd(history, start))
    ensures SaysTheSame(history[start..TurnEnd(history, start)], run, TurnEnd(history, start) == |history|)
  {
    hide Spelled, Speakers, Coalesce, ActivePrefix, Parts, RunMessages;
    var end := TurnEnd(history, start);
    var said, all := Parts(history[start..end]), RunMessages(run);
    CoalesceSpells(said);
    CoalesceSpells(all);
    assert Turn(history, start) == Coalesce(said) && Projected(run) == Coalesce(all);
    if Coalesce(said) == Coalesce(all) {
      assert Speakers(said) == Speakers(all);
    } else {
      ActivePrefixSpells(Coalesce(said), Coalesce(all));
      ActivePrefixRoles(Coalesce(said), Coalesce(all));
      assert Speakers(said) <= Speakers(all);
    }
  }

  lemma ActivePrefixRoles(actual: seq<Part>, projected: seq<Part>)
    requires ActivePrefix(actual, projected)
    ensures |actual| <= |projected| && forall i :: 0 <= i < |actual| ==> actual[i].role == projected[i].role
  {
  }

  // Every turn that a run replaces says what the run says.
  lemma CutsSayTheSame(history: seq<HistoryMessage>, cursor: nat, runs: seq<seq<SubSessionEvent>>, r: nat)
    requires cursor <= |history| && r < |runs| && Cuts(history, cursor, runs)[r].Some?
    ensures
      var start := Cuts(history, cursor, runs)[r].value;
      && start < |history| && IsTurn(history, start, TurnEnd(history, start))
      && SaysTheSame(history[start..TurnEnd(history, start)], runs[r], TurnEnd(history, start) == |history|)
  {
    hide Cuts, Matches, Projected, TurnEnd, IsTurn, SaysTheSame;
    CutsAreValid(history, cursor, runs);
    MatchesSaySame(history, runs[r], Cuts(history, cursor, runs)[r].value);
  }

  // A turn that does not say what some run says is kept whole: another reply to the
  // same question, even as the last turn, is not lost.
  lemma OtherTurnsStay(history: seq<HistoryMessage>, events: seq<SubSessionEvent>, start: nat, end: nat)
    returns (before: seq<HistoryMessage>, after: seq<HistoryMessage>)
    requires IsTurn(history, start, end)
    requires forall r :: 0 <= r < |Runs(events)| ==>
      !SaysTheSame(history[start..end], Runs(events)[r], end == |history|)
    ensures MessagesOf(Merge(history, events)) == before + history[start..end] + after
  {
    hide *;
    var cuts := Cuts(history, 0, Runs(events));
    assert Merge(history, events) == MergeFrom(history, 0, Runs(events)) by {
      MergeIs(history, events);
    }
    MergeFromConserves(history, 0, Runs(events));
    NothingRemoved(history, events, start, end);
    before := KeptBefore(history, cuts, 0, start);
    KeptStretch(history, cuts, start, end);
    after := Kept(history, cuts, end);
    assert before + (history[start..end] + after) == before + history[start..end] + after;
  }

  lemma MergeIs(history: seq<HistoryMessage>, events: seq<SubSessionEvent>)
    ensures Merge(history, events) == MergeFrom(history, 0, Runs(events))
  {
  }

  lemma NothingRemoved(history: seq<HistoryMessage>, events: seq<SubSessionEvent>, start: nat, end: nat)
    requires IsTurn(history, start, end)
    requires forall r :: 0 <= r < |Runs(events)| ==>
      !SaysTheSame(history[start..end], Runs(events)[r], end == |history|)
    ensures start <= end <= |history|
    ensures forall i :: start <= i < end ==> !Removed(history, Cuts(history, 0, Runs(events)), i)
  {
    hide SaysTheSame, Removed, Cuts;
    forall i | start <= i < end ensures !Removed(history, Cuts(history, 0, Runs(events)), i) {
      if Removed(history, Cuts(history, 0, Runs(events)), i) {
        var r := RemovedSaysTheSame(history, events, start, end, i);
      }
    }
  }

  lemma RemovedSaysTheSame(history: seq<HistoryMessage>, events: seq<SubSessionEvent>, start: nat, end: nat, i: nat)
    returns (r: nat)
    requires IsTurn(history, start, end) && start <= i < end
    requires Removed(history, Cuts(history, 0, Runs(events)), i)
    ensures r < |Runs(events)| && SaysTheSame(history[start..end], Runs(events)[r], end == |history|)
  {
    hide SaysTheSame, Matches, Projected, TurnEnd, Cuts;
    var cuts := Cuts(history, 0, Runs(events));
    r :| 0 <= r < |cuts| && cuts[r].Some? && cuts[r].value < |history|
         && cuts[r].value <= i < TurnEnd(history, cuts[r].value);
    CutsSayTheSame(history, 0, Runs(events), r);
    assert cuts[r].value == start && TurnEnd(history, cuts[r].value) == end;
  }

  lemma {:induction false} KeptBefore(history: seq<HistoryMessage>, cuts: seq<Option<nat>>, from: nat, upTo: nat)
    returns (before: seq<HistoryMessage>)
    requires from <= upTo <= |history|
    ensures Kept(history, cuts, from) == before + Kept(history, cuts, upTo)
    decreases upTo - from
  {
    hide Removed;
    if from == upTo {
      before := [];
      assert before + Kept(history, cuts, upTo) == Kept(history, cuts, upTo);
    } else {
      before := KeptBefore(history, cuts, from + 1, upTo);
      var rest := Kept(history, cuts, upTo);
      if !Removed(history, cuts, from) {
        assert [history[from]] + (before + rest) == [history[from]] + before + rest;
        before := [history[from]] + before;
      }
    }
  }
}
