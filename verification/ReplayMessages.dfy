/** What the events of a child run say in its conversation (`history_messages` and the
projection in `src/sub_session.rs`), in the terms of the conversation itself.
*/
module ReplayMessages {
  import opened Text
  import opened SubSession

  // White space, by code point.
  ghost predicate IsSpace(ch: char) {
    var c := ch as int;
    || 9 <= c <= 13 || c == 32 || c == 133 || c == 160 || c == 5760
    || 8192 <= c <= 8202 || c == 8232 || c == 8233 || c == 8239 || c == 8287 || c == 12288
  }

  ghost predicate IsBlank(text: string) {
    forall i :: 0 <= i < |text| ==> IsSpace(text[i])
  }

  // `core` is `text` without the white space around it.
  ghost predicate IsCore(text: string, core: string, from: nat) {
    && from + |core| <= |text| && core == text[from..from + |core|]
    && IsBlank(text[..from]) && IsBlank(text[from + |core|..])
    && (core != "" ==> !IsSpace(core[0]) && !IsSpace(core[|core| - 1]))
  }

  ghost predicate SameButForSpace(a: string, b: string) {
    exists core, i, j :: IsCore(a, core, i) && IsCore(b, core, j)
  }

  lemma {:induction false} TrimStartCuts(text: string) returns (from: nat)
    ensures from <= |text| && TrimStart(text) == text[from..] && IsBlank(text[..from])
    ensures from < |text| ==> !IsSpace(text[from])
  {
    if text != "" && IsWhitespace(text[0]) {
      from := TrimStartCuts(text[1..]);
      assert text[..from + 1] == [text[0]] + text[1..][..from];
      from := from + 1;
    } else {
      from := 0;
    }
  }

  lemma {:induction false} TrimEndCuts(text: string) returns (to: nat)
    ensures to <= |text| && TrimEnd(text) == text[..to] && IsBlank(text[to..])
    ensures to > 0 ==> !IsSpace(text[to - 1])
  {
    if text != "" && IsWhitespace(text[|text| - 1]) {
      to := TrimEndCuts(text[..|text| - 1]);
      assert text[to..] == text[..|text| - 1][to..] + [text[|text| - 1]];
    } else {
      to := |text|;
      assert text[..to] == text;
    }
  }

  lemma TrimIsCore(text: string) returns (from: nat)
    ensures IsCore(text, Trim(text), from)
  {
    hide IsSpace;
    from := TrimStartCuts(text);
    var rest := text[from..];
    var to := TrimEndCuts(rest);
    assert rest[..to] == text[from..from + to] && rest[to..] == text[from + to..];
    if to > 0 {
      assert rest[..to][0] == text[from] && rest[..to][to - 1] == rest[to - 1];
    }
  }

  lemma CoreReaches(text: string, a: string, i: nat, b: string, j: nat)
    requires IsCore(text, a, i) && IsCore(text, b, j) && a != ""
    ensures b != "" && j <= i && i + |a| <= j + |b|
  {
    hide IsSpace;
    var last: nat, end: nat := i + |a| - 1, j + |b|;
    assert a[0] == text[i] && a[|a| - 1] == text[last];
    if b == "" {
      InBlank(text, i, j);
    } else if i < j {
      InFront(text, i, j);
    } else if end <= last {
      Behind(text, last, end);
    }
  }

  lemma InFront(text: string, i: nat, j: nat)
    requires i < j <= |text| && IsBlank(text[..j])
    ensures IsSpace(text[i])
  {
    assert text[..j][i] == text[i];
  }

  lemma Behind(text: string, i: nat, j: nat)
    requires j <= i < |text| && IsBlank(text[j..])
    ensures IsSpace(text[i])
  {
    assert text[j..][i - j] == text[i];
  }

  lemma CoreIsUnique(text: string, a: string, i: nat, b: string, j: nat)
    requires IsCore(text, a, i) && IsCore(text, b, j)
    ensures a == b
  {
    hide IsSpace, IsBlank;
    if a != "" {
      CoreReaches(text, a, i, b, j);
    }
    if b != "" {
      CoreReaches(text, b, j, a, i);
    }
  }

  // A text of white space only has no core but the empty one.
  lemma InBlank(text: string, i: nat, j: nat)
    requires i < |text| && j <= |text| && IsBlank(text[..j]) && IsBlank(text[j..])
    ensures IsSpace(text[i])
  {
    if i < j {
      InFront(text, i, j);
    } else {
      Behind(text, i, j);
    }
  }

  lemma TrimsAgree(a: string, b: string)
    ensures Trim(a) == Trim(b) <==> SameButForSpace(a, b)
    ensures Trim(a) == "" <==> IsBlank(a)
  {
    hide IsSpace, IsBlank, Trim;
    var i := TrimIsCore(a);
    var j := TrimIsCore(b);
    if core, m, n :| IsCore(a, core, m) && IsCore(b, core, n) {
      CoreIsUnique(a, Trim(a), i, core, m);
      CoreIsUnique(b, Trim(b), j, core, n);
    }
    BlankCore(a, Trim(a), i);
  }

  lemma BlankCore(text: string, core: string, from: nat)
    requires IsCore(text, core, from)
    ensures core == "" <==> IsBlank(text)
  {
    hide IsSpace;
    if core == "" {
      forall i | 0 <= i < |text| ensures IsSpace(text[i]) {
        InBlank(text, i, from);
      }
    } else {
      assert core[0] == text[from];
    }
  }

  // A run is the events of one child thread and one run of it, in their order.
  lemma {:induction false} SameRunIsSelected(events: seq<SubSessionEvent>, threadId: string, runId: string)
    ensures Selected(events, SameRun(events, (threadId, runId)), (event: SubSessionEvent) =>
      if event.threadId == threadId && event.runId == runId then Some(event) else None)
  {
    var image := (event: SubSessionEvent) => if event.threadId == threadId && event.runId == runId then Some(event) else None;
    if events == [] {
      SelectedNothing(image);
    } else {
      SameRunIsSelected(events[..|events| - 1], threadId, runId);
      SelectedSnoc(events, SameRun(events[..|events| - 1], (threadId, runId)), image);
    }
  }

  // What the run has streamed so far, from the contents of its deltas.
  ghost function Content(event: SubSessionEvent): Option<string> {
    if event.event.Delta? then Some(event.event.content) else None
  }

  ghost predicate HasStreamed(earlier: seq<SubSessionEvent>, text: string) {
    exists contents :: Selected(earlier, contents, Content) && text == Join(contents)
  }

  lemma {:induction false} StreamedIsStreamed(earlier: seq<SubSessionEvent>)
    ensures HasStreamed(earlier, Streamed(earlier))
  {
    hide Selected, Join;
    if earlier == [] {
      SelectedNothing(Content);
      NothingJoined();
      var none: seq<string> := [];
      assert Streamed(earlier) == Join(none);
    } else {
      var front, last := earlier[..|earlier| - 1], earlier[|earlier| - 1];
      StreamedIsStreamed(front);
      var contents :| Selected(front, contents, Content) && Streamed(front) == Join(contents);
      SelectedSnoc(earlier, contents, Content);
      if last.event.Delta? {
        JoinSnoc(contents, last.event.content);
      } else {
        assert Streamed(front) + "" == Streamed(front);
      }
    }
  }

  lemma NothingJoined()
    ensures Join([]) == ""
  {
  }

  // The task of a run, or its title, or who was started where.
  ghost predicate Opens(event: SubSessionEvent, input: Option<string>, text: string) {
    if input.Some? && !IsBlank(input.value) then text == input.value
    else if event.title.Some? then text == event.title.value
    else text == "Sub-session started: " + event.agentName + " / " + event.threadId
  }

  // A final output is said if it is not blank and not just what was streamed.
  ghost predicate IsNews(streamed: string, output: string) {
    !IsBlank(output) && (streamed == "" || !SameButForSpace(output, streamed))
  }

  // What an event says after the earlier ones of its run.
  ghost predicate Says(streamed: string, event: SubSessionEvent, messages: seq<Part>) {
    match event.event
    case RunStart(input) => exists text :: Opens(event, input, text) && messages == [Part("user", text)]
    case Delta(content) => messages == if content == "" then [] else [Part("assistant", content)]
    case Custom(kind, output) =>
      messages == if kind == "sub_session_done" && output.Some? && IsNews(streamed, output.value)
                  then [Part("assistant", output.value)] else []
    case Error(message) => messages == [Part("assistant", "Error: " + message)]
    case Cancelled => messages == [Part("assistant", "Error: cancelled")]
    case Other(_) => messages == []
  }

  lemma EventSays(earlier: seq<SubSessionEvent>, event: SubSessionEvent)
    ensures Says(Streamed(earlier), event, EventMessages(earlier, event))
  {
    hide IsBlank, SameButForSpace, Trim, Streamed;
    match event.event {
      case RunStart(input) =>
        if input.Some? {
          TrimsAgree(input.value, "");
        }
      case Custom(_, output) =>
        if output.Some? {
          TrimsAgree(output.value, Streamed(earlier));
        }
      case _ =>
    }
  }

  ghost predicate SaysAfter(earlier: seq<SubSessionEvent>, event: SubSessionEvent, messages: seq<Part>) {
    exists streamed :: HasStreamed(earlier, streamed) && Says(streamed, event, messages)
  }

  // The messages of a run are what its events say, one after another.
  ghost predicate AreMessagesOf(run: seq<SubSessionEvent>, messages: seq<Part>)
    decreases |run|
  {
    if run == [] then messages == []
    else
      exists n: nat :: n <= |messages| && SaysAfter(run[..|run| - 1], run[|run| - 1], messages[n..])
        && AreMessagesOf(run[..|run| - 1], messages[..n])
  }

  lemma {:induction false} RunSays(run: seq<SubSessionEvent>)
    ensures AreMessagesOf(run, RunMessages(run))
  {
    hide HasStreamed, Says, EventMessages;
    if run != [] {
      var front, last := run[..|run| - 1], run[|run| - 1];
      var n, messages := |RunMessages(front)|, RunMessages(run);
      RunSays(front);
      StreamedIsStreamed(front);
      EventSays(front, last);
      assert messages[..n] == RunMessages(front) && messages[n..] == EventMessages(front, last);
      assert SaysAfter(front, last, messages[n..]);
    }
  }
}
