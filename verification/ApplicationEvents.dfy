/** The events of a run, as an application delivers them (`src/application.rs`), and
what they say of its reply. */
module ApplicationEvents {
  import opened Text
  import opened A2a

  datatype CatEvent =
    | Text(text: string)
    | Error(message: string)
    | Cancelled
    | SubSession(child: string)
    | ModelInputSnapshot(json: string)
    | Shown(kind: string, data: string)
    | Unshown

  datatype ApplicationEvent =
    | Prefix(text: string)
    | Reply(text: string)
    | Cat(event: CatEvent)
    | ResponseCompleted(text: string)
    | Done
    | SupervisorStarted

  predicate HasDone(events: seq<ApplicationEvent>) {
    exists i :: 0 <= i < |events| && events[i].Done?
  }

  function UntilDone(events: seq<ApplicationEvent>): (consumed: seq<ApplicationEvent>)
    ensures consumed <= events
    ensures forall i :: 0 <= i < |consumed| ==> !consumed[i].Done?
    ensures |consumed| < |events| ==> events[|consumed|].Done?
  {
    if events == [] || events[0].Done? then [] else [events[0]] + UntilDone(events[1..])
  }

  // The visible reply: a completed response replaces everything before it.
  function ReplyText(events: seq<ApplicationEvent>): string {
    if events == [] then ""
    else
      var front := events[..|events| - 1];
      match events[|events| - 1]
      case Prefix(text) => ReplyText(front) + text
      case Reply(text) => ReplyText(front) + text
      case Cat(Text(text)) => ReplyText(front) + text
      case ResponseCompleted(text) => text
      case _ => ReplyText(front)
  }

  // An error or a cancellation decides; the last of them.
  function ReplyState(events: seq<ApplicationEvent>): (state: TaskState)
    ensures IsTerminal(state)
  {
    if events == [] then Completed
    else
      match events[|events| - 1]
      case Cat(Error(_)) => Failed
      case Cat(Cancelled) => Canceled
      case _ => ReplyState(events[..|events| - 1])
  }

  function ReplyMessage(events: seq<ApplicationEvent>): Option<string> {
    if events == [] then None
    else
      match events[|events| - 1]
      case Cat(Error(message)) => Some(message)
      case _ => ReplyMessage(events[..|events| - 1])
  }

  // ---------------------------------------------------------------------------
  // What the reply is
  // ---------------------------------------------------------------------------

  // The text that an event adds to the reply.
  ghost function Piece(event: ApplicationEvent): Option<string> {
    if event.Prefix? || event.Reply? then Some(event.text)
    else if event.Cat? && event.event.Text? then Some(event.event.text)
    else None
  }

  // What is said after some text: the pieces of the reply, in order, and no others.
  ghost predicate SaidAfter(before: string, events: seq<ApplicationEvent>, text: string) {
    exists pieces :: Selected(events, pieces, Piece) && text == before + Join(pieces)
  }

  ghost predicate LastCompleted(events: seq<ApplicationEvent>, i: int) {
    0 <= i < |events| && events[i].ResponseCompleted? && forall k :: i < k < |events| ==> !events[k].ResponseCompleted?
  }

  // The text of the last completed response and what was said after it, or all that was
  // said if there is none.
  ghost predicate IsReply(events: seq<ApplicationEvent>, text: string) {
    && (forall i :: LastCompleted(events, i) ==> SaidAfter(events[i].text, events[i + 1..], text))
    && ((forall i :: 0 <= i < |events| ==> !events[i].ResponseCompleted?) ==> SaidAfter("", events, text))
  }

  lemma SaidMore(before: string, events: seq<ApplicationEvent>, text: string, event: ApplicationEvent)
    requires SaidAfter(before, events, text)
    ensures SaidAfter(before, events + [event], match Piece(event) case Some(piece) => text + piece case None => text)
  {
    hide Join, Selected, Piece;
    var pieces :| Selected(events, pieces, Piece) && text == before + Join(pieces);
    assert (events + [event])[..|events|] == events;
    SelectedSnoc(events + [event], pieces, Piece);
    if Piece(event).Some? {
      JoinSnoc(pieces, Piece(event).value);
      assert before + Join(pieces) + Piece(event).value == before + Join(pieces + [Piece(event).value]);
    }
  }

  lemma SaidNothing(before: string)
    ensures SaidAfter(before, [], before)
  {
    hide Selected;
    SelectedNothing(Piece);
    var none: seq<string> := [];
    assert before == before + Join(none);
  }

  lemma {:induction false} ReplyTextIsReply(events: seq<ApplicationEvent>)
    ensures IsReply(events, ReplyText(events))
  {
    hide SaidAfter;
    if events == [] {
      SaidNothing("");
    } else {
      var front, last := events[..|events| - 1], events[|events| - 1];
      assert events == front + [last];
      ReplyTextIsReply(front);
      if last.ResponseCompleted? {
        SaidNothing(last.text);
        assert forall i :: LastCompleted(events, i) ==> i == |front|;
        assert events[|front| + 1..] == [];
      } else {
        forall i | LastCompleted(events, i) ensures SaidAfter(events[i].text, events[i + 1..], ReplyText(events)) {
          assert LastCompleted(front, i) && front[i] == events[i];
          SaidMore(front[i].text, front[i + 1..], ReplyText(front), last);
          assert front[i + 1..] + [last] == events[i + 1..];
        }
        if forall i :: 0 <= i < |events| ==> !events[i].ResponseCompleted? {
          assert forall i :: 0 <= i < |front| ==> front[i] == events[i];
          SaidMore("", front, ReplyText(front), last);
        }
      }
    }
  }

  ghost predicate SaysEnd(event: ApplicationEvent) {
    event.Cat? && (event.event.Error? || event.event.Cancelled?)
  }

  ghost predicate LastToSay(events: seq<ApplicationEvent>, i: int) {
    0 <= i < |events| && SaysEnd(events[i]) && forall k :: i < k < |events| ==> !SaysEnd(events[k])
  }

  ghost predicate IsError(event: ApplicationEvent) {
    event.Cat? && event.event.Error?
  }

  ghost predicate LastError(events: seq<ApplicationEvent>, i: int) {
    0 <= i < |events| && IsError(events[i]) && forall k :: i < k < |events| ==> !IsError(events[k])
  }

  // The last error or cancellation decides, and the last error explains.
  ghost predicate IsEnd(events: seq<ApplicationEvent>, state: TaskState, message: Option<string>) {
    && (forall i :: LastToSay(events, i) ==> state == if events[i].event.Error? then Failed else Canceled)
    && ((forall i :: 0 <= i < |events| ==> !SaysEnd(events[i])) ==> state == Completed)
    && (forall i :: LastError(events, i) ==> message == Some(events[i].event.message))
    && ((forall i :: 0 <= i < |events| ==> !IsError(events[i])) ==> message == None)
  }

  lemma {:induction false} ReplyStateIsLast(events: seq<ApplicationEvent>)
    ensures forall i :: LastToSay(events, i) ==> ReplyState(events) == if events[i].event.Error? then Failed else Canceled
    ensures (forall i :: 0 <= i < |events| ==> !SaysEnd(events[i])) ==> ReplyState(events) == Completed
  {
    if events != [] && !SaysEnd(events[|events| - 1]) {
      var front := events[..|events| - 1];
      ReplyStateIsLast(front);
      forall i | LastToSay(events, i) ensures ReplyState(events) == if events[i].event.Error? then Failed else Canceled {
        assert LastToSay(front, i) && front[i] == events[i];
      }
      if forall i :: 0 <= i < |events| ==> !SaysEnd(events[i]) {
        assert forall i :: 0 <= i < |front| ==> !SaysEnd(front[i]);
      }
    }
  }

  lemma {:induction false} ReplyMessageIsLast(events: seq<ApplicationEvent>)
    ensures forall i :: LastError(events, i) ==> ReplyMessage(events) == Some(events[i].event.message)
    ensures (forall i :: 0 <= i < |events| ==> !IsError(events[i])) ==> ReplyMessage(events) == None
  {
    if events != [] && !IsError(events[|events| - 1]) {
      var front := events[..|events| - 1];
      ReplyMessageIsLast(front);
      forall i | LastError(events, i) ensures ReplyMessage(events) == Some(events[i].event.message) {
        assert LastError(front, i) && front[i] == events[i];
      }
      if forall i :: 0 <= i < |events| ==> !IsError(events[i]) {
        assert forall i :: 0 <= i < |front| ==> !IsError(front[i]);
      }
    }
  }

  lemma ReplyEnds(events: seq<ApplicationEvent>)
    ensures IsEnd(events, ReplyState(events), ReplyMessage(events))
  {
    hide ReplyState, ReplyMessage, LastToSay, LastError, SaysEnd, IsError;
    ReplyStateIsLast(events);
    ReplyMessageIsLast(events);
  }

  lemma {:induction false} UntilDoneIs(events: seq<ApplicationEvent>, i: nat)
    requires i <= |events|
    requires forall k :: 0 <= k < i ==> !events[k].Done?
    requires i == |events| || events[i].Done?
    ensures UntilDone(events) == events[..i]
  {
    if i > 0 {
      UntilDoneIs(events[1..], i - 1);
      assert events[..i] == [events[0]] + events[1..][..i - 1];
    }
  }

  // Once its end is there, nothing that follows belongs to a run.
  lemma UntilDoneOfPrefix(delivered: seq<ApplicationEvent>, whole: seq<ApplicationEvent>)
    requires delivered <= whole && HasDone(delivered)
    ensures UntilDone(delivered) == UntilDone(whole)
  {
    var consumed := UntilDone(delivered);
    UntilDoneIs(whole, |consumed|);
  }
}
