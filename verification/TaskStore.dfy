/** The persisted task store (`src/a2a_channel.rs`).

Every operation holds the store's write lock, so racing writers are any sequence of
operations. A save may fail after memory has changed, and the process may restart
from what was saved.
*/
module TaskStore {
  import opened Text
  import opened A2a
  import opened Ordering

  datatype Entry = Entry(task: Task, version: nat)

  datatype Store = Store(memory: map<string, Entry>, disk: map<string, Entry>)

  datatype Outcome = Ok(version: nat) | AlreadyExists | NotFound | SaveFailed | Restarted

  datatype Operation =
    | Create(task: Task, saves: bool)
    | Update(task: Task, saves: bool)
    | Restart

  function Written(memory: map<string, Entry>, store: Store, saves: bool): Store {
    Store(memory, if saves then memory else store.disk)
  }

  // A late snapshot never takes a task out of a terminal state.
  function Merged(current: Entry, task: Task): Entry {
    Entry(if IsTerminal(current.task.status.state) then task.(status := current.task.status) else task, current.version + 1)
  }

  function Apply(store: Store, operation: Operation): (Store, Outcome) {
    match operation
    case Create(task, saves) =>
      if task.id in store.memory then (store, AlreadyExists)
      else (Written(store.memory[task.id := Entry(task, 1)], store, saves), if saves then Ok(1) else SaveFailed)
    case Update(task, saves) =>
      if task.id !in store.memory then (store, NotFound)
      else
        var entry := Merged(store.memory[task.id], task);
        (Written(store.memory[task.id := entry], store, saves), if saves then Ok(entry.version) else SaveFailed)
    case Restart => (store.(memory := store.disk), Restarted)
  }

  function Run(store: Store, operations: seq<Operation>): Store {
    if operations == [] then store
    else Apply(Run(store, operations[..|operations| - 1]), operations[|operations| - 1]).0
  }

  const Empty := Store(map[], map[])

  class JsonTaskStore {
    var tasks: map<string, Entry>
    var file: map<string, Entry>

    function View(): Store
      reads this
    {
      Store(tasks, file)
    }

    constructor Load(file: map<string, Entry>)
      ensures View() == Store(file, file)
    {
      this.file := file;
      tasks := file;
    }

    method Save(succeeds: bool)
      modifies this`file
      ensures file == if succeeds then tasks else old(file)
    {
      if succeeds {
        file := tasks;
      }
    }

    method CreateTask(task: Task, saves: bool) returns (outcome: Outcome)
      modifies this
      ensures (View(), outcome) == Apply(old(View()), Create(task, saves))
      ensures
        if task.id in old(tasks) then outcome == AlreadyExists && tasks == old(tasks) && file == old(file)
        else
          && tasks == old(tasks)[task.id := Entry(task, 1)]
          && (if saves then outcome == Ok(1) && file == tasks else outcome == SaveFailed && file == old(file))
    {
      if task.id in tasks {
        return AlreadyExists;
      }
      tasks := tasks[task.id := Entry(task, 1)];
      Save(saves);
      return if saves then Ok(1) else SaveFailed;
    }

    method UpdateTask(task: Task, saves: bool) returns (outcome: Outcome)
      modifies this
      ensures (View(), outcome) == Apply(old(View()), Update(task, saves))
      ensures
        if task.id !in old(tasks) then outcome == NotFound && tasks == old(tasks) && file == old(file)
        else
          var (known, version) := (old(tasks)[task.id].task, old(tasks)[task.id].version + 1);
          var kept := known.status.state in {Completed, Failed, Canceled, Rejected};
          && tasks == old(tasks)[task.id := Entry(if kept then task.(status := known.status) else task, version)]
          && (if saves then outcome == Ok(version) && file == tasks else outcome == SaveFailed && file == old(file))
    {
      if task.id !in tasks {
        return NotFound;
      }
      var entry := tasks[task.id];
      var stored := task;
      if IsTerminal(entry.task.status.state) {
        stored := stored.(status := entry.task.status);
      }
      entry := entry.(version := entry.version + 1);
      entry := entry.(task := stored);
      tasks := tasks[task.id := entry];
      Save(saves);
      return if saves then Ok(entry.version) else SaveFailed;
    }

    method ListTasks(request: ListRequest) returns (response: ListResponse)
      ensures exists ids :: IsListing(ids, Matching(tasks, request)) && response == PageOf(TasksOf(tasks, ids), request)
      ensures exists matches :: AreMatches(tasks, request, matches) && IsPage(matches, request, response)
    {
      var matching := set id | id in tasks && Selects(request, tasks[id].task) :: id;
      var ids := SortedKeys(matching);
      var matches := CollectTasks(ids);
      response := Page(matches, request);
      assert matching == Matching(tasks, request);
      MatchesOfListing(tasks, request, ids);
    }

    method CollectTasks(ids: seq<string>) returns (matches: seq<Task>)
      ensures matches == TasksOf(tasks, ids)
    {
      matches := [];
      for i := 0 to |ids|
        invariant matches == TasksOf(tasks, ids[..i])
      {
        assert ids[..i + 1][..i] == ids[..i];
        if ids[i] in tasks {
          matches := matches + [tasks[ids[i]].task];
        }
      }
      assert ids[..|ids|] == ids;
    }
  }

  method Page(matches: seq<Task>, request: ListRequest) returns (response: ListResponse)
    ensures response == PageOf(matches, request) && IsPage(matches, request, response)
  {
    PageOfIsPage(matches, request);
    hide Shown, PageStart, PageSize, Print, AsInt32, IsPage;
    var pageSize := PageSize(request);
    var start := Min(PageStart(request.pageToken), |matches|);
    var end := Min(start + pageSize, |matches|);
    var page := TrimHistories(matches[start..end], request.historyLength);
    return ListResponse(page, if end < |matches| then Print(end) else "", AsInt32(pageSize), AsInt32(|matches|));
  }

  method TrimHistories(tasks: seq<Task>, historyLength: Option<int>) returns (page: seq<Task>)
    ensures page == Shown(tasks, historyLength)
  {
    hide Trimmed, Shown;
    page := tasks;
    if historyLength.Some? {
      var keep := if historyLength.value < 0 then 0 else historyLength.value;
      for i := 0 to |page|
        invariant |page| == |tasks|
        invariant forall k :: 0 <= k < i ==> page[k] == Trimmed(tasks[k], historyLength)
        invariant forall k :: i <= k < |page| ==> page[k] == tasks[k]
      {
        page := page[i := DrainHistory(page[i], keep)];
      }
    } else {
      forall k | 0 <= k < |page| ensures page[k] == Trimmed(tasks[k], historyLength) {
        NoTrim(tasks[k]);
      }
    }
  }

  lemma NoTrim(task: Task)
    ensures Trimmed(task, None) == task
  {
  }

  function DrainHistory(task: Task, keep: nat): (drained: Task)
    ensures forall length :: (if length < 0 then 0 else length) == keep ==> drained == Trimmed(task, Some(length))
  {
    var remove := if |task.history| > keep then |task.history| - keep else 0;
    task.(history := task.history[remove..])
  }

  // ---------------------------------------------------------------------------
  // What the store remembers of its writers
  // ---------------------------------------------------------------------------

  // The accepted writes of one task: its creation and every later update.
  function Writes(operations: seq<Operation>, id: string): seq<Task> {
    if operations == [] then []
    else
      var earlier, last := Writes(operations[..|operations| - 1], id), operations[|operations| - 1];
      if last.Create? && last.task.id == id && earlier == [] then [last.task]
      else if last.Update? && last.task.id == id && earlier != [] then earlier + [last.task]
      else earlier
  }

  function FirstTerminal(writes: seq<Task>): Option<TaskStatus> {
    if writes == [] then None
    else if IsTerminal(writes[0].status.state) then Some(writes[0].status)
    else FirstTerminal(writes[1..])
  }

  function Summary(writes: seq<Task>): Entry
    requires writes != []
  {
    var latest := writes[|writes| - 1];
    match FirstTerminal(writes)
    case Some(status) => Entry(latest.(status := status), |writes|)
    case None => Entry(latest, |writes|)
  }

  lemma {:induction false} FirstTerminalSnoc(writes: seq<Task>, task: Task)
    ensures FirstTerminal(writes + [task])
         == if FirstTerminal(writes).Some? then FirstTerminal(writes)
            else if IsTerminal(task.status.state) then Some(task.status) else None
    ensures FirstTerminal(writes).Some? ==> IsTerminal(FirstTerminal(writes).value.state)
    ensures FirstTerminal(writes).None? ==> forall i :: 0 <= i < |writes| ==> !IsTerminal(writes[i].status.state)
  {
    if writes != [] {
      assert (writes + [task])[1..] == writes[1..] + [task];
      FirstTerminalSnoc(writes[1..], task);
      assert forall i :: 0 < i < |writes| ==> writes[i] == writes[1..][i - 1];
    } else {
      assert [task][1..] == [];
      assert [] + [task] == [task];
    }
  }

  // For any racing writers, a task is its latest write, but for a status frozen at its
  // first terminal value; its version counts its writes; and it is filed under its id.
  lemma {:induction false} StoreSummarizesWrites(operations: seq<Operation>, id: string)
    requires forall i :: 0 <= i < |operations| ==> !operations[i].Restart?
    ensures
      var memory, writes := Run(Empty, operations).memory, Writes(operations, id);
      && (id in memory <==> writes != [])
      && (writes != [] ==> memory[id] == Summary(writes) && memory[id].task.id == id)
  {
    if operations != [] {
      var front, last := operations[..|operations| - 1], operations[|operations| - 1];
      StoreSummarizesWrites(front, id);
      if !last.Restart? && last.task.id == id {
        FirstTerminalSnoc(Writes(front, id), last.task);
        assert Writes(front, id) == [] ==> Writes(front, id) + [last.task] == [last.task];
      }
    }
  }

  // ---------------------------------------------------------------------------
  // Terminal states survive failures
  // ---------------------------------------------------------------------------

  ghost predicate Frozen(store: Store, id: string, status: TaskStatus) {
    && IsTerminal(status.state)
    && id in store.memory && store.memory[id].task.status == status
    && id in store.disk && store.disk[id].task.status == status
  }

  lemma {:induction false} FrozenStays(store: Store, operations: seq<Operation>, id: string, status: TaskStatus)
    requires Frozen(store, id, status)
    ensures Frozen(Run(store, operations), id, status)
  {
    if operations != [] {
      FrozenStays(store, operations[..|operations| - 1], id, status);
    }
  }

  // An acknowledged terminal state is final, through any racing writers, failed saves
  // and restarts.
  lemma AcknowledgedTerminalIsFinal(store: Store, operation: Operation, later: seq<Operation>)
    requires !operation.Restart? && Apply(store, operation).1.Ok?
    requires IsTerminal(Apply(store, operation).0.memory[operation.task.id].task.status.state)
    ensures
      var after := Apply(store, operation).0;
      var status, end := after.memory[operation.task.id].task.status, Run(after, later);
      && operation.task.id in end.memory && end.memory[operation.task.id].task.status == status
      && operation.task.id in end.disk && end.disk[operation.task.id].task.status == status
  {
    var after := Apply(store, operation).0;
    FrozenStays(after, later, operation.task.id, after.memory[operation.task.id].task.status);
  }

  // Without an acknowledgement it need not be: a terminal status in memory is final
  // exactly when the file already has it.
  lemma TerminalIsFinalExactlyOnDisk(store: Store, id: string)
    requires id in store.memory && IsTerminal(store.memory[id].task.status.state)
    ensures
      var status := store.memory[id].task.status;
      (forall later :: id in Run(store, later).memory && Run(store, later).memory[id].task.status == status)
      <==> id in store.disk && store.disk[id].task.status == status
  {
    var status := store.memory[id].task.status;
    if id in store.disk && store.disk[id].task.status == status {
      forall later ensures id in Run(store, later).memory && Run(store, later).memory[id].task.status == status {
        FrozenStays(store, later, id, status);
      }
    } else {
      assert [Restart][..0] == [];
      var later := [Restart];
      assert Run(store, later).memory == store.disk;
      assert !(id in Run(store, later).memory && Run(store, later).memory[id].task.status == status);
    }
  }

  // That happens: a terminal update whose save fails is seen, and undone by a restart.
  lemma UnsavedTerminalIsLost(working: Task, ended: Task)
    requires working.id == ended.id && !IsTerminal(working.status.state) && IsTerminal(ended.status.state)
    ensures
      var operations := [Create(working, true), Update(ended, false)];
      var store, restarted := Run(Empty, operations), Run(Empty, operations + [Restart]);
      && ended.id in store.memory && store.memory[ended.id].task == ended
      && ended.id in store.disk && store.disk[ended.id].task == working
      && ended.id in restarted.memory && restarted.memory[ended.id].task == working
  {
    var operations := [Create(working, true), Update(ended, false)];
    assert operations[..1] == [Create(working, true)] && operations[..1][..0] == [];
    assert Run(Empty, []) == Empty;
    assert Run(Empty, operations[..1]) == Apply(Empty, Create(working, true)).0;
    assert Run(Empty, operations) == Apply(Run(Empty, operations[..1]), Update(ended, false)).0;
    assert (operations + [Restart])[..2] == operations;
    assert Run(Empty, operations + [Restart]) == Apply(Run(Empty, operations), Restart).0;
  }

  // ---------------------------------------------------------------------------
  // Listing by pages
  // ---------------------------------------------------------------------------

  datatype ListRequest = ListRequest(
    contextId: Option<string>, status: Option<TaskState>, pageSize: Option<int>,
    pageToken: Option<string>, historyLength: Option<int>)

  datatype ListResponse = ListResponse(tasks: seq<Task>, nextPageToken: string, pageSize: int, totalSize: int)

  // The low 32 bits of a count, as a signed number.
  function AsInt32(n: nat): (m: int)
    ensures -0x8000_0000 <= m < 0x8000_0000
    ensures n < 0x8000_0000 ==> m == n
  {
    var low := n % 0x1_0000_0000;
    if low < 0x8000_0000 then low else low - 0x1_0000_0000
  }

  const DEFAULT_PAGE_SIZE: nat := 50
  const USIZE_LIMIT: nat := 0x1_0000_0000_0000_0000

  function Min(a: int, b: int): int {
    if a < b then a else b
  }

  predicate Selects(request: ListRequest, task: Task) {
    && (request.contextId.Some? ==> task.contextId == request.contextId.value)
    && (request.status.Some? ==> task.status.state == request.status.value)
  }

  function Matching(tasks: map<string, Entry>, request: ListRequest): set<string> {
    set id | id in tasks && Selects(request, tasks[id].task)
  }

  function PageSize(request: ListRequest): (size: nat)
    ensures size > 0
  {
    if request.pageSize.Some? && request.pageSize.value > 0 then request.pageSize.value else DEFAULT_PAGE_SIZE
  }

  function PageStart(token: Option<string>): nat {
    if token.None? then 0
    else match Parse(token.value) case Some(n) => n case None => 0
  }

  // Keeps the most recent part of a task's history.
  function Trimmed(task: Task, historyLength: Option<int>): Task {
    if historyLength.None? then task
    else
      var keep := if historyLength.value < 0 then 0 else historyLength.value;
      var remove := if |task.history| > keep then |task.history| - keep else 0;
      task.(history := task.history[remove..])
  }

  function Shown(matches: seq<Task>, historyLength: Option<int>): (shown: seq<Task>)
    ensures |shown| == |matches|
    ensures forall i :: 0 <= i < |matches| ==> shown[i] == Trimmed(matches[i], historyLength)
  {
    if matches == [] then []
    else Shown(matches[..|matches| - 1], historyLength) + [Trimmed(matches[|matches| - 1], historyLength)]
  }

  function TasksOf(tasks: map<string, Entry>, ids: seq<string>): seq<Task> {
    if ids == [] then []
    else
      var front, last := TasksOf(tasks, ids[..|ids| - 1]), ids[|ids| - 1];
      if last in tasks then front + [tasks[last].task] else front
  }

  // Where a page starts and ends among `total` matches.
  function Bounds(total: nat, request: ListRequest): (bounds: (nat, nat))
    ensures bounds.0 <= bounds.1 <= total
    ensures bounds.0 < total ==> bounds.0 < bounds.1
    ensures bounds.0 == Min(PageStart(request.pageToken), total)
  {
    var start := Min(PageStart(request.pageToken), total);
    (start, Min(start + PageSize(request), total))
  }

  function PageOf(matches: seq<Task>, request: ListRequest): ListResponse {
    var (start, end) := Bounds(|matches|, request);
    ListResponse(Shown(matches[start..end], request.historyLength), if end < |matches| then Print(end) else "",
                 AsInt32(PageSize(request)), AsInt32(|matches|))
  }

  // --- decimal page tokens ---

  function DigitChar(d: nat): char
    requires d < 10
  {
    '0' + d as char
  }

  function Print(n: nat): string {
    if n < 10 then [DigitChar(n)] else Print(n / 10) + [DigitChar(n % 10)]
  }

  function ParseDigits(text: string): Option<nat> {
    if text == "" then Some(0)
    else
      var front, last := ParseDigits(text[..|text| - 1]), text[|text| - 1];
      if front.Some? && '0' <= last <= '9' then Some(front.value * 10 + (last - '0') as nat) else None
  }

  // Rust's decimal parser for `usize`: an optional plus sign, at least one digit, no
  // overflow.
  function Parse(text: string): Option<nat> {
    var digits := if text != "" && text[0] == '+' then text[1..] else text;
    if digits == "" then None
    else
      var n := ParseDigits(digits);
      if n.Some? && n.value < USIZE_LIMIT then n else None
  }

  lemma {:induction false} PrintedDigits(n: nat)
    ensures Print(n) != "" && Print(n)[0] != '+' && ParseDigits(Print(n)) == Some(n)
  {
    if n >= 10 {
      PrintedDigits(n / 10);
      assert Print(n)[..|Print(n)| - 1] == Print(n / 10);
    } else {
      assert [DigitChar(n)][..0] == "";
    }
  }

  lemma ParsePrinted(n: nat)
    requires n < USIZE_LIMIT
    ensures Parse(Print(n)) == Some(n)
  {
    PrintedDigits(n);
  }

  lemma TokenLeadsOn(end: nat)
    requires end < USIZE_LIMIT
    ensures PageStart(Some(Print(end))) == end && Print(end) != ""
  {
    PrintedDigits(end);
  }

  // ---------------------------------------------------------------------------
  // What a response promises
  // ---------------------------------------------------------------------------

  // The tasks of the asked context and state, each once, in the order of their ids.
  ghost predicate AreMatches(tasks: map<string, Entry>, request: ListRequest, matches: seq<Task>) {
    exists ids :: Sorted(ids) && AreTasksOf(tasks, request, ids, matches)
  }

  ghost predicate AreTasksOf(tasks: map<string, Entry>, request: ListRequest, ids: seq<string>, matches: seq<Task>) {
    && (forall id :: id in ids <==>
          && id in tasks
          && (request.contextId == None || request.contextId == Some(tasks[id].task.contextId))
          && (request.status == None || request.status == Some(tasks[id].task.status.state)))
    && |matches| == |ids| && forall i :: 0 <= i < |ids| ==> ids[i] in tasks && matches[i] == tasks[ids[i]].task
  }

  ghost function DigitsValue(digits: string): int {
    if digits == "" then 0
    else DigitsValue(digits[..|digits| - 1]) * 10 + (digits[|digits| - 1] as int - 48)
  }

  ghost predicate AreDigits(text: string) {
    text != "" && forall i :: 0 <= i < |text| ==> 48 <= text[i] as int <= 57
  }

  // A number of 64 bits, with or without a plus sign.
  ghost predicate Denotes(token: string, n: int) {
    && n < 0x1_0000_0000_0000_0000
    && var digits := if token != "" && token[0] == '+' then token[1..] else token;
       AreDigits(digits) && DigitsValue(digits) == n
  }

  // A token that is no number is as good as none.
  ghost predicate StartsAt(token: Option<string>, start: int) {
    if token.Some? && (exists n :: Denotes(token.value, n)) then Denotes(token.value, start) else start == 0
  }

  // The last messages of a task, as many as asked for.
  ghost predicate ShowsLast(shown: Task, task: Task, length: Option<int>) {
    && shown == task.(history := shown.history)
    && var n := if length.None? || length.value >= |task.history| then |task.history|
                else if length.value < 0 then 0 else length.value;
       shown.history == task.history[|task.history| - n..]
  }

  // Congruent modulo 2^32, and a signed number of 32 bits.
  ghost predicate IsInt32Of(m: int, n: nat) {
    -0x8000_0000 <= m < 0x8000_0000 && (n - m) % 0x1_0000_0000 == 0
  }

  ghost predicate IsPageFrom(matches: seq<Task>, request: ListRequest, response: ListResponse, from: int) {
    var total, size := |matches|, if request.pageSize.Some? && request.pageSize.value >= 1 then request.pageSize.value else 50;
    var start := if from < total then from else total;
    var end := if start + size < total then start + size else total;
    && 0 <= start && StartsAt(request.pageToken, from)
    && |response.tasks| == end - start
    && (forall i :: 0 <= i < end - start ==> ShowsLast(response.tasks[i], matches[start + i], request.historyLength))
    && (if end == total then response.nextPageToken == ""
        else AreDigits(response.nextPageToken) && DigitsValue(response.nextPageToken) == end)
    && IsInt32Of(response.pageSize, size) && IsInt32Of(response.totalSize, total)
  }

  ghost predicate IsPage(matches: seq<Task>, request: ListRequest, response: ListResponse) {
    exists from :: IsPageFrom(matches, request, response, from)
  }

  lemma {:induction false} ParsedDigits(text: string)
    ensures ParseDigits(text).Some? <==> text == "" || AreDigits(text)
    ensures ParseDigits(text).Some? ==> ParseDigits(text).value == DigitsValue(text)
  {
    if text != "" {
      var front := text[..|text| - 1];
      ParsedDigits(front);
      assert AreDigits(text) ==> front == "" || AreDigits(front);
    }
  }

  lemma TokenStartsAt(token: Option<string>)
    ensures StartsAt(token, PageStart(token))
  {
    hide ParseDigits, DigitsValue, AreDigits;
    if token.Some? {
      var text := token.value;
      var digits := if text != "" && text[0] == '+' then text[1..] else text;
      ParsedDigits(digits);
      NoDigits();
      if Parse(text).Some? {
        assert Denotes(text, Parse(text).value);
      } else {
        assert forall n :: !Denotes(text, n);
      }
    }
  }

  lemma NoDigits()
    ensures !AreDigits("")
  {
  }

  lemma TrimmedShowsLast(task: Task, length: Option<int>)
    ensures ShowsLast(Trimmed(task, length), task, length)
  {
    assert task.history[0..] == task.history;
  }

  lemma AsInt32Is(n: nat)
    ensures IsInt32Of(AsInt32(n), n)
  {
  }

  lemma PageOfIsPage(matches: seq<Task>, request: ListRequest)
    ensures IsPage(matches, request, PageOf(matches, request))
  {
    hide Print, AsInt32, StartsAt, PageStart, ShowsLast, Trimmed, IsInt32Of, AreDigits, DigitsValue, ParseDigits;
    var response := PageOf(matches, request);
    var (start, end) := Bounds(|matches|, request);
    TokenStartsAt(request.pageToken);
    AsInt32Is(PageSize(request));
    AsInt32Is(|matches|);
    PrintedDigits(end);
    ParsedDigits(Print(end));
    forall i | 0 <= i < end - start ensures ShowsLast(response.tasks[i], matches[start + i], request.historyLength) {
      TrimmedShowsLast(matches[start..end][i], request.historyLength);
    }
    assert IsPageFrom(matches, request, response, PageStart(request.pageToken));
  }

  lemma MatchesOfListing(tasks: map<string, Entry>, request: ListRequest, ids: seq<string>)
    requires IsListing(ids, Matching(tasks, request))
    ensures AreMatches(tasks, request, TasksOf(tasks, ids))
  {
    hide Less;
    forall i | 0 <= i < |ids| ensures ids[i] in tasks {
      assert ids[i] in ids;
    }
    TasksOfListing(tasks, ids);
    assert AreTasksOf(tasks, request, ids, TasksOf(tasks, ids));
  }

  // The tasks a client collects by following page tokens from a request on.
  function Walk(matches: seq<Task>, request: ListRequest): seq<Task>
    requires |matches| < USIZE_LIMIT
    decreases |matches| - Bounds(|matches|, request).0
  {
    var page := PageOf(matches, request);
    if page.nextPageToken == "" then page.tasks
    else
      TokenLeadsOn(Bounds(|matches|, request).1);
      page.tasks + Walk(matches, request.(pageToken := Some(page.nextPageToken)))
  }

  lemma {:induction false} WalkFrom(matches: seq<Task>, request: ListRequest)
    requires |matches| < USIZE_LIMIT
    ensures Walk(matches, request) == Shown(matches[Bounds(|matches|, request).0..], request.historyLength)
    decreases |matches| - Bounds(|matches|, request).0
  {
    hide PageStart, PageSize, Print, Shown, Bounds;
    var (start, end) := Bounds(|matches|, request);
    TokenLeadsOn(end);
    if end < |matches| {
      WalkFrom(matches, request.(pageToken := Some(Print(end))));
      ShownConcat(matches[start..end], matches[end..], request.historyLength);
      assert matches[start..] == matches[start..end] + matches[end..];
    } else {
      assert matches[start..end] == matches[start..];
    }
  }

  lemma ShownConcat(a: seq<Task>, b: seq<Task>, historyLength: Option<int>)
    ensures Shown(a + b, historyLength) == Shown(a, historyLength) + Shown(b, historyLength)
  {
    hide Trimmed;
    var whole, left, right := Shown(a + b, historyLength), Shown(a, historyLength), Shown(b, historyLength);
    forall i | 0 <= i < |whole| ensures whole[i] == (left + right)[i] {
      assert (a + b)[i] == if i < |a| then a[i] else b[i - |a|];
    }
  }

  lemma {:induction false} TasksOfListing(tasks: map<string, Entry>, ids: seq<string>)
    requires forall i :: 0 <= i < |ids| ==> ids[i] in tasks
    ensures |TasksOf(tasks, ids)| == |ids|
    ensures forall i :: 0 <= i < |ids| ==> TasksOf(tasks, ids)[i] == tasks[ids[i]].task
  {
    if ids != [] {
      TasksOfListing(tasks, ids[..|ids| - 1]);
    }
  }

  // On an unchanged store, following the tokens from the start ends and returns every
  // matching task exactly once, in id order, for any page size.
  lemma PagesCoverMatches(tasks: map<string, Entry>, ids: seq<string>, request: ListRequest)
    requires IsListing(ids, Matching(tasks, request)) && |ids| < USIZE_LIMIT
    requires request.pageToken.None?
    ensures |TasksOf(tasks, ids)| == |ids|
    ensures forall i :: 0 <= i < |ids| ==> ids[i] in tasks
    ensures
      var walked := Walk(TasksOf(tasks, ids), request);
      |walked| == |ids| && forall i :: 0 <= i < |ids| ==> walked[i] == Trimmed(tasks[ids[i]].task, request.historyLength)
    ensures forall other :: IsListing(other, Matching(tasks, request)) ==> other == ids
  {
    forall i | 0 <= i < |ids| ensures ids[i] in tasks {
      assert ids[i] in ids;
    }
    TasksOfListing(tasks, ids);
    WalkFrom(TasksOf(tasks, ids), request);
    assert TasksOf(tasks, ids)[0..] == TasksOf(tasks, ids);
    forall other | IsListing(other, Matching(tasks, request)) ensures other == ids {
      ListingIsUnique(other, ids);
    }
  }
}
