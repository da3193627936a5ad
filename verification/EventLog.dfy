/** The append-only event log of a sub-session and its byte-offset paging
(`append_event_log` in `src/sub_session.rs`, `read_sub_session_events` in
`src/application.rs`, `load_thread_history` in `src/tui_app.rs`).

The JSON codec is a parameter: all that is asked of it is that what it prints is one
line which parses back.
*/
module EventLog {
  import opened Text

  type Bytes = seq<bv8>

  const NEWLINE: bv8 := 10

  predicate IsSpace(b: bv8) {
    b == 32 || 9 <= b <= 13
  }

  function TrimEndBytes(line: Bytes): Bytes {
    if line != [] && IsSpace(line[|line| - 1]) then TrimEndBytes(line[..|line| - 1]) else line
  }

  // The last byte is neither a space nor one of the controls from tab to carriage return.
  ghost predicate EndsInText(line: Bytes) {
    line != [] ==> line[|line| - 1] !in {32, 9, 10, 11, 12, 13}
  }

  // Exactly the white space at the end goes.
  lemma {:induction false} TrimEndCuts(line: Bytes)
    ensures TrimEndBytes(line) <= line && EndsInText(TrimEndBytes(line))
    ensures forall i :: |TrimEndBytes(line)| <= i < |line| ==> line[i] in {32, 9, 10, 11, 12, 13}
  {
    if line != [] && IsSpace(line[|line| - 1]) {
      TrimEndCuts(line[..|line| - 1]);
    }
  }

  datatype Codec<!Event> = Codec(write: Event -> Bytes, parse: Bytes -> Option<Event>)

  ghost predicate PrintsLines<Event(!new)>(codec: Codec<Event>) {
    && (forall e: Event, i :: 0 <= i < |codec.write(e)| ==> codec.write(e)[i] != 10)
    && (forall e: Event :: codec.write(e) != [] && EndsInText(codec.write(e)))
    && (forall e: Event :: codec.parse(codec.write(e)) == Some(e))
  }

  datatype Page<Event> = Page(events: seq<Event>, nextOffset: nat)

  // The bytes up to and including the next newline, or to the end of the file.
  function LineLength(file: Bytes, at: nat): (n: nat)
    requires at <= |file|
    ensures at + n <= |file|
    ensures at < |file| ==> n > 0
    decreases |file| - at
  {
    if at == |file| then 0
    else if file[at] == NEWLINE then 1
    else 1 + LineLength(file, at + 1)
  }

  function Prepend<Event>(events: seq<Event>, page: Option<Page<Event>>): Option<Page<Event>> {
    match page
    case None => None
    case Some(rest) => Some(Page(events + rest.events, rest.nextOffset))
  }

  lemma PrependTwice<Event>(a: seq<Event>, b: seq<Event>, page: Option<Page<Event>>)
    ensures Prepend(a, Prepend(b, page)) == Prepend(a + b, page)
  {
    if page.Some? {
      assert a + (b + page.value.events) == a + b + page.value.events;
    }
  }

  // Up to `count` lines from a byte offset. (None: a line does not parse.)
  function PageAt<Event(!new)>(codec: Codec<Event>, file: Bytes, offset: nat, count: nat): Option<Page<Event>>
    decreases count
  {
    if count == 0 || offset >= |file| then Some(Page([], offset))
    else
      var n := LineLength(file, offset);
      match codec.parse(TrimEndBytes(file[offset..offset + n]))
      case None => None
      case Some(event) =>
        Prepend([event], PageAt(codec, file, offset + n, count - 1))
  }

  function Encode<Event(!new)>(codec: Codec<Event>, events: seq<Event>): Bytes {
    if events == [] then []
    else Encode(codec, events[..|events| - 1]) + codec.write(events[|events| - 1]) + [NEWLINE]
  }

  // Where line k begins.
  function Boundary<Event(!new)>(codec: Codec<Event>, events: seq<Event>, k: nat): nat
    requires k <= |events|
  {
    |Encode(codec, events[..k])|
  }

  function Min(a: nat, b: nat): nat {
    if a < b then a else b
  }

  function AtLeastOne(limit: nat): nat {
    if limit == 0 then 1 else limit
  }

  // ---------------------------------------------------------------------------
  // Pages of whole lines
  // ---------------------------------------------------------------------------

  lemma {:induction false} LineLengthOfLine(before: Bytes, line: Bytes, after: Bytes)
    requires forall i :: 0 <= i < |line| ==> line[i] != NEWLINE
    ensures LineLength(before + line + [NEWLINE] + after, |before|) == |line| + 1
    decreases |line|
  {
    var file := before + line + [NEWLINE] + after;
    if line == [] {
      assert file[|before|] == NEWLINE;
    } else {
      assert file[|before|] == line[0];
      LineLengthOfLine(before + [line[0]], line[1..], after);
      assert before + [line[0]] + line[1..] + [NEWLINE] + after == file;
    }
  }

  lemma {:induction false} EncodeConcat<Event(!new)>(codec: Codec<Event>, a: seq<Event>, b: seq<Event>)
    ensures Encode(codec, a + b) == Encode(codec, a) + Encode(codec, b)
  {
    if b == [] {
      assert a + b == a;
    } else {
      var front := b[..|b| - 1];
      assert (a + b)[..|a + b| - 1] == a + front;
      EncodeConcat(codec, a, front);
    }
  }

  lemma EncodeAround<Event(!new)>(codec: Codec<Event>, events: seq<Event>, k: nat)
    requires k < |events|
    ensures
      Encode(codec, events)
      == Encode(codec, events[..k]) + codec.write(events[k]) + [NEWLINE] + Encode(codec, events[k + 1..])
    ensures Boundary(codec, events, k + 1) == Boundary(codec, events, k) + |codec.write(events[k])| + 1
  {
    assert events[..k + 1][..k] == events[..k];
    EncodeConcat(codec, events[..k + 1], events[k + 1..]);
    assert events[..k + 1] + events[k + 1..] == events;
  }

  lemma TrimmedLine<Event(!new)>(codec: Codec<Event>, event: Event)
    requires PrintsLines(codec)
    ensures TrimEndBytes(codec.write(event) + [NEWLINE]) == codec.write(event)
  {
    assert (codec.write(event) + [NEWLINE])[..|codec.write(event)|] == codec.write(event);
  }

  lemma LineIn<Event(!new)>(codec: Codec<Event>, before: Bytes, event: Event, after: Bytes)
    requires PrintsLines(codec)
    ensures
      var file, at := before + codec.write(event) + [NEWLINE] + after, |before|;
      var n := LineLength(file, at);
      && n == |codec.write(event)| + 1
      && codec.parse(TrimEndBytes(file[at..at + n])) == Some(event)
  {
    var line := codec.write(event);
    LineLengthOfLine(before, line, after);
    TrimmedLine(codec, event);
    hide LineLength, TrimEndBytes;
    assert (before + line + [NEWLINE] + after)[|before|..|before| + |line| + 1] == line + [NEWLINE];
  }

  // The line that begins at a boundary.
  lemma LineAtBoundary<Event(!new)>(codec: Codec<Event>, events: seq<Event>, k: nat)
    requires PrintsLines(codec) && k < |events|
    ensures
      var file, at, n := Encode(codec, events), Boundary(codec, events, k), |codec.write(events[k])| + 1;
      && at + n == Boundary(codec, events, k + 1) <= |file| && LineLength(file, at) == n
      && codec.parse(TrimEndBytes(file[at..at + n])) == Some(events[k])
  {
    hide PrintsLines, Encode, LineLength, TrimEndBytes;
    EncodeAround(codec, events, k);
    LineIn(codec, Encode(codec, events[..k]), events[k], Encode(codec, events[k + 1..]));
  }

  lemma {:induction false} BoundariesGrow<Event(!new)>(codec: Codec<Event>, events: seq<Event>, k: nat, n: nat)
    requires k + n <= |events|
    ensures Boundary(codec, events, k + n) >= Boundary(codec, events, k) + n
  {
    if n > 0 {
      BoundariesGrow(codec, events, k, n - 1);
      EncodeAround(codec, events, k + n - 1);
    }
  }

  // From a line boundary, a page is the next events and ends on a line boundary.
  lemma {:induction false} PageOfLog<Event(!new)>(codec: Codec<Event>, events: seq<Event>, k: nat, count: nat)
    requires PrintsLines(codec) && k <= |events|
    ensures
      var n := Min(count, |events| - k);
      PageAt(codec, Encode(codec, events), Boundary(codec, events, k), count)
      == Some(Page(events[k..k + n], Boundary(codec, events, k + n)))
    decreases count
  {
    hide Encode, LineLength, TrimEndBytes, PrintsLines;
    if k == |events| {
      assert events[..k] == events && events[k..k] == [];
    } else if count == 0 {
      assert events[k..k] == [];
    } else {
      LineAtBoundary(codec, events, k);
      PageOfLog(codec, events, k + 1, count - 1);
      var n := Min(count, |events| - k);
      assert [events[k]] + events[k + 1..k + n] == events[k..k + n];
    }
  }

  function ReadPage<Event(!new)>(codec: Codec<Event>, file: Option<Bytes>, offset: nat, limit: nat): Option<Page<Event>> {
    if file.None? then Some(Page([], offset)) else PageAt(codec, file.value, offset, AtLeastOne(limit))
  }

  // A log that does not exist yet has no events.
  ghost predicate IsLog<Event(!new)>(codec: Codec<Event>, file: Option<Bytes>, events: seq<Event>) {
    && PrintsLines(codec)
    && (file.None? ==> events == [])
    && (file.Some? ==> file.value == Encode(codec, events))
  }

  // From a line boundary a read never fails, returns the next events, ends on a line
  // boundary, and makes progress unless everything has been read.
  lemma ReadFromBoundary<Event(!new)>(codec: Codec<Event>, file: Option<Bytes>, events: seq<Event>, k: nat, limit: nat)
    returns (n: nat)
    requires IsLog(codec, file, events) && k <= |events|
    ensures n == Min(AtLeastOne(limit), |events| - k) && k + n <= |events|
    ensures
      var page := ReadPage(codec, file, Boundary(codec, events, k), limit);
      && page == Some(Page(events[k..k + n], Boundary(codec, events, k + n)))
      && (n == 0 <==> k == |events|)
      && (page.value.nextOffset == Boundary(codec, events, k) <==> k == |events|)
  {
    hide Encode, PageAt, PrintsLines;
    PageOfLog(codec, events, k, AtLeastOne(limit));
    n := Min(AtLeastOne(limit), |events| - k);
    BoundariesGrow(codec, events, k, n);
    assert file.None? ==> events[k..k] == [];
  }

  lemma TakeMore<T>(s: seq<T>, k: nat, n: nat)
    requires k + n <= |s|
    ensures s[..k] + s[k..k + n] == s[..k + n]
    ensures s[..|s|] == s
  {
  }

  // ---------------------------------------------------------------------------
  // The log and its readers
  // ---------------------------------------------------------------------------

  // Having read the lines `found`, what is left of the page begins at `at`.
  ghost predicate ReadSoFar<Event(!new)>(codec: Codec<Event>, file: Bytes, offset: nat, count: nat,
                                         found: seq<Event>, at: nat)
  {
    |found| <= count && PageAt(codec, file, offset, count) == Prepend(found, PageAt(codec, file, at, count - |found|))
  }

  lemma ReadOneLine<Event(!new)>(codec: Codec<Event>, file: Bytes, offset: nat, count: nat, found: seq<Event>, at: nat)
    requires ReadSoFar(codec, file, offset, count, found, at) && |found| < count && at < |file|
    ensures
      var n := LineLength(file, at);
      var parsed := codec.parse(TrimEndBytes(file[at..at + n]));
      if parsed.None? then PageAt(codec, file, offset, count) == None
      else ReadSoFar(codec, file, offset, count, found + [parsed.value], at + n)
  {
    var n := LineLength(file, at);
    var parsed := codec.parse(TrimEndBytes(file[at..at + n]));
    if parsed.Some? {
      PrependTwice(found, [parsed.value], PageAt(codec, file, at + n, count - |found| - 1));
    }
  }

  lemma ReadEnds<Event(!new)>(codec: Codec<Event>, file: Bytes, offset: nat, count: nat, found: seq<Event>, at: nat)
    requires ReadSoFar(codec, file, offset, count, found, at) && (|found| == count || at >= |file|)
    ensures PageAt(codec, file, offset, count) == Some(Page(found, at))
  {
    assert found + [] == found;
  }

  lemma ReadBegins<Event(!new)>(codec: Codec<Event>, file: Bytes, offset: nat, count: nat)
    ensures ReadSoFar(codec, file, offset, count, [], offset)
  {
    var page := PageAt(codec, file, offset, count);
    if page.Some? {
      assert [] + page.value.events == page.value.events;
    }
  }

  // What is in the file need not be a log for this to hold.
  method ReadLines<Event(!new)>(codec: Codec<Event>, file: Bytes, offset: nat, count: nat)
    returns (page: Option<Page<Event>>)
    ensures page == PageAt(codec, file, offset, count)
  {
    hide *;
    var found: seq<Event> := [];
    var consumed := 0;
    ReadBegins(codec, file, offset, count);
    while |found| < count
      invariant |found| <= count && ReadSoFar(codec, file, offset, count, found, offset + consumed)
    {
      if offset + consumed >= |file| {
        break;
      }
      ReadOneLine(codec, file, offset, count, found, offset + consumed);
      var bytes := LineLength(file, offset + consumed);
      var line := file[offset + consumed..offset + consumed + bytes];
      consumed := consumed + bytes;
      var parsed := codec.parse(TrimEndBytes(line));
      if parsed.None? {
        return None;
      }
      found := found + [parsed.value];
    }
    ReadEnds(codec, file, offset, count, found, offset + consumed);
    return Some(Page(found, offset + consumed));
  }

  class SubSessionLog<Event(!new)> {
    const codec: Codec<Event>
    var file: Option<Bytes>
    ghost var events: seq<Event>

    ghost predicate Valid()
      reads this
    {
      IsLog(codec, file, events)
    }

    constructor (codec: Codec<Event>)
      requires PrintsLines(codec)
      ensures Valid() && this.codec == codec && events == []
    {
      this.codec, file, events := codec, None, [];
    }

    method Append(event: Event)
      requires Valid()
      modifies this
      ensures Valid() && events == old(events) + [event]
      ensures file == Some((if old(file).None? then [] else old(file).value) + codec.write(event) + [10])
    {
      var bytes := codec.write(event) + [NEWLINE];
      file := Some((if file.None? then [] else file.value) + bytes);
      ghost var before := events;
      events := before + [event];
      EncodeConcat(codec, before, [event]);
      assert Encode(codec, [event]) == bytes;
    }

    method ReadEvents(offset: nat, limit: nat) returns (page: Option<Page<Event>>)
      ensures page == ReadPage(codec, file, offset, limit)
      ensures page == if file.None? then Some(Page([], offset))
                      else PageAt(codec, file.value, offset, if limit < 1 then 1 else limit)
    {
      if file.None? {
        return Some(Page([], offset));
      }
      page := ReadLines(codec, file.value, offset, AtLeastOne(limit));
    }

    // Opening a sub-session view reads every event there is.
    method LoadAll() returns (loaded: seq<Event>, offset: nat)
      requires Valid()
      ensures loaded == events && offset == Boundary(codec, events, |events|)
    {
      loaded, offset := [], 0;
      ghost var k, log := 0, events;
      assert Encode(codec, log[..0]) == [];
      assert IsLog(codec, file, log);
      hide *;
      while true
        invariant k <= |log| && loaded == log[..k]
        invariant offset == Boundary(codec, log, k)
        decreases |log| - k
      {
        var page := ReadEvents(offset, 256);
        ghost var n := ReadFromBoundary(codec, file, log, k, 256);
        if page.None? || page.value.events == [] || page.value.nextOffset == offset {
          break;
        }
        TakeMore(log, k, n);
        offset, k := page.value.nextOffset, k + n;
        loaded := loaded + page.value.events;
      }
      TakeMore(log, k, 0);
    }
  }

  // ---------------------------------------------------------------------------
  // Reading while the log grows
  // ---------------------------------------------------------------------------

  datatype Action<Event> = Append(event: Event) | Read(limit: nat)

  datatype Reader<Event> = Reader(file: Option<Bytes>, log: seq<Event>, got: seq<Event>, offset: nat, failed: bool)

  function Next<Event(!new)>(codec: Codec<Event>, r: Reader<Event>, action: Action<Event>): Reader<Event> {
    match action
    case Append(event) =>
      var before := if r.file.None? then [] else r.file.value;
      r.(file := Some(before + codec.write(event) + [NEWLINE]), log := r.log + [event])
    case Read(limit) =>
      match ReadPage(codec, r.file, r.offset, limit)
      case None => r.(failed := true)
      case Some(page) => r.(got := r.got + page.events, offset := page.nextOffset)
  }

  function Follow<Event(!new)>(codec: Codec<Event>, actions: seq<Action<Event>>): Reader<Event> {
    if actions == [] then Reader(None, [], [], 0, false)
    else Next(codec, Follow(codec, actions[..|actions| - 1]), actions[|actions| - 1])
  }

  // What was read is the beginning of the log, and the offset is where the rest begins.
  ghost predicate InStep<Event(!new)>(codec: Codec<Event>, r: Reader<Event>) {
    && !r.failed && IsLog(codec, r.file, r.log)
    && |r.got| <= |r.log| && r.got == r.log[..|r.got|]
    && r.offset == Boundary(codec, r.log, |r.got|)
  }

  lemma AppendKeepsInStep<Event(!new)>(codec: Codec<Event>, r: Reader<Event>, event: Event)
    requires InStep(codec, r)
    ensures InStep(codec, Next(codec, r, Append(event)))
  {
    hide PrintsLines;
    EncodeConcat(codec, r.log, [event]);
    assert (r.log + [event])[..|r.got|] == r.log[..|r.got|];
  }

  lemma ReadKeepsInStep<Event(!new)>(codec: Codec<Event>, r: Reader<Event>, limit: nat)
    requires InStep(codec, r)
    ensures InStep(codec, Next(codec, r, Read(limit)))
    ensures |Next(codec, r, Read(limit)).got| == |r.got| + Min(AtLeastOne(limit), |r.log| - |r.got|)
  {
    hide IsLog, Boundary, ReadPage, Min, AtLeastOne;
    var n := ReadFromBoundary(codec, r.file, r.log, |r.got|, limit);
    TakeMore(r.log, |r.got|, n);
  }

  // For any sequence of limits and any appends between the reads, the pages are the
  // log's events in order, none skipped and none repeated; each offset is a line
  // boundary; and a read that could get an event does.
  lemma {:induction false} PagesFollowTheLog<Event(!new)>(codec: Codec<Event>, actions: seq<Action<Event>>)
    requires PrintsLines(codec)
    ensures InStep(codec, Follow(codec, actions))
    ensures
      var r := Follow(codec, actions);
      |r.got| < |r.log| ==> forall limit :: |Next(codec, r, Read(limit)).got| > |r.got|
  {
    hide Next, InStep, PrintsLines;
    var r := Follow(codec, actions);
    if actions == [] {
      NothingRead(codec);
    } else {
      var before := Follow(codec, actions[..|actions| - 1]);
      PagesFollowTheLog(codec, actions[..|actions| - 1]);
      match actions[|actions| - 1] {
        case Append(event) => AppendKeepsInStep(codec, before, event);
        case Read(limit) => ReadKeepsInStep(codec, before, limit);
      }
    }
    forall limit: nat ensures |r.got| < |r.log| ==> |Next(codec, r, Read(limit)).got| > |r.got| {
      ReadKeepsInStep(codec, r, limit);
    }
  }

  lemma NothingRead<Event(!new)>(codec: Codec<Event>)
    requires PrintsLines(codec)
    ensures InStep(codec, Reader(None, [], [], 0, false))
  {
  }
}
