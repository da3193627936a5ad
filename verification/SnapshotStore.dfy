/** Snapshots of model input, one file per session and run (`src/model_input_store.rs`).

The class changes a file tree step by step and may be stopped between any two file
operations. Its methods say what happens to the tree for every id; the lemmas say for
which ids the tree is a map keyed by session and run.
*/
module SnapshotStore {
  import opened Text
  import opened SnapshotNames

  const SNAPSHOT_DIR := "model-input-snapshots"

  // Components below the data directory.
  type Path = seq<string>

  type Files = map<Path, string>

  // Joining a component and following it.
  function Enter(base: Path, component: string): Path {
    if component == "." then base
    else if component == ".." then (if base == [] then [] else base[..|base| - 1])
    else base + [component]
  }

  function SessionDir(session: Id): Path {
    Enter([SNAPSHOT_DIR], Escaped(session))
  }

  function SnapshotFile(session: Id, run: Id): Path {
    SessionDir(session) + [Escaped(run) + ".json"]
  }

  // Where the extension of a name begins; a leading dot begins none.
  function ExtensionAt(name: string): (at: nat)
    ensures at <= |name|
  {
    if name == "" then 0
    else
      var front := name[..|name| - 1];
      if name[|name| - 1] == '.' && front != "" then |front|
      else if ExtensionAt(front) < |front| then ExtensionAt(front)
      else |name|
  }

  function Extension(name: string): Option<string> {
    if ExtensionAt(name) < |name| then Some(name[ExtensionAt(name) + 1..]) else None
  }

  function WithExtension(name: string, extension: string): string {
    name[..ExtensionAt(name)] + "." + extension
  }

  function TemporaryFile(session: Id, run: Id): Path {
    SessionDir(session) + [WithExtension(Escaped(run) + ".json", "json.tmp")]
  }

  predicate IsUnder(dir: Path, path: Path) {
    dir <= path
  }

  function Upserted(files: Files, session: Id, run: Id, json: string): Files {
    (files - {TemporaryFile(session, run)})[SnapshotFile(session, run) := json]
  }

  // An upsert that stopped half way, before or after losing the old file.
  function Interrupted(files: Files, session: Id, run: Id, json: string, lost: bool): Files {
    (if lost then files - {SnapshotFile(session, run)} else files)[TemporaryFile(session, run) := json]
  }

  function Deleted(files: Files, session: Id): Files {
    map path | path in files && !IsUnder(SessionDir(session), path) :: files[path]
  }

  function Found(files: Files, session: Id, run: Id): Option<string> {
    if SnapshotFile(session, run) in files then Some(files[SnapshotFile(session, run)]) else None
  }

  // What listing a session reads: the `.json` files right in its directory.
  predicate IsListed(dir: Path, path: Path) {
    |path| == |dir| + 1 && dir <= path && Extension(path[|dir|]) == Some("json")
  }

  datatype Item = Item(createdAt: int, json: string)

  // A stable sort, newest first.
  function InsertItem(items: seq<Item>, item: Item): seq<Item> {
    if items != [] && items[|items| - 1].createdAt < item.createdAt
    then InsertItem(items[..|items| - 1], item) + [items[|items| - 1]]
    else items + [item]
  }

  function NewestFirst(items: seq<Item>): seq<Item> {
    if items == [] then [] else InsertItem(NewestFirst(items[..|items| - 1]), items[|items| - 1])
  }

  ghost predicate ListsSession(files: Files, session: Id, paths: seq<Path>) {
    && (forall p :: p in paths <==> p in files && IsListed(SessionDir(session), p))
    && (forall i, j :: 0 <= i < j < |paths| ==> paths[i] != paths[j])
  }

  // When a snapshot was made: as it says itself, or else as its file does.
  datatype Clock = Clock(createdAt: string -> Option<int>, modified: Path -> Option<int>)

  function TimeOf(clock: Clock, path: Path, json: string): int {
    match clock.createdAt(json)
    case Some(time) => time
    case None => match clock.modified(path) case Some(time) => time case None => 0
  }

  ghost predicate AreItems(files: Files, clock: Clock, paths: seq<Path>, items: seq<Item>) {
    |items| == |paths| && forall i :: 0 <= i < |paths| ==>
      paths[i] in files && items[i] == Item(TimeOf(clock, paths[i], files[paths[i]]), files[paths[i]])
  }

  function Contents(items: seq<Item>): (contents: seq<string>)
    ensures |contents| == |items|
  {
    seq(|items|, i requires 0 <= i < |items| => items[i].json)
  }

  function Newest(items: seq<Item>, limit: Option<nat>): seq<string> {
    var sorted := NewestFirst(items);
    Contents(if limit.Some? && limit.value < |sorted| then sorted[..limit.value] else sorted)
  }

  // Some reading of the directory, whatever its order, gives these contents.
  ghost predicate IsListing(files: Files, session: Id, clock: Clock, limit: Option<nat>, contents: seq<string>) {
    exists paths, items ::
      ListsSession(files, session, paths) && AreItems(files, clock, paths, items) && contents == Newest(items, limit)
  }

  // The creation time that the snapshot gives, or the time of its file, or none.
  ghost predicate IsTime(clock: Clock, path: Path, json: string, time: int) {
    if clock.createdAt(json).Some? then time == clock.createdAt(json).value
    else if clock.modified(path).Some? then time == clock.modified(path).value
    else time == 0
  }

  ghost predicate AreTimed(files: Files, clock: Clock, paths: seq<Path>, items: seq<Item>) {
    |items| == |paths| && forall i :: 0 <= i < |paths| ==>
      paths[i] in files && items[i].json == files[paths[i]] && IsTime(clock, paths[i], items[i].json, items[i].createdAt)
  }

  ghost predicate AreFirst(sorted: seq<Item>, limit: Option<nat>, contents: seq<string>) {
    && |contents| == (if limit.Some? && limit.value < |sorted| then limit.value else |sorted|)
    && (forall i :: 0 <= i < |contents| ==> contents[i] == sorted[i].json)
    && (forall i, j :: 0 <= i < j < |sorted| ==> sorted[i].createdAt >= sorted[j].createdAt)
  }

  // The newest snapshots of the session, in that order, all of them or up to the limit.
  ghost predicate ShowsNewest(files: Files, session: Id, clock: Clock, limit: Option<nat>, contents: seq<string>) {
    exists paths, items, sorted ::
      && ListsSession(files, session, paths) && AreTimed(files, clock, paths, items)
      && multiset(sorted) == multiset(items) && AreFirst(sorted, limit, contents)
  }

  lemma NewestIsShown(files: Files, session: Id, clock: Clock, limit: Option<nat>, paths: seq<Path>, items: seq<Item>)
    requires ListsSession(files, session, paths) && AreItems(files, clock, paths, items)
    ensures ShowsNewest(files, session, clock, limit, Newest(items, limit))
  {
    hide ListsSession, NewestFirst;
    SortKeepsItems(items);
    SortSorts(items);
    assert AreTimed(files, clock, paths, items);
    assert AreFirst(NewestFirst(items), limit, Newest(items, limit));
  }

  class Store {
    var files: Files
    // Whether renaming replaces an existing file, or reports that it exists.
    const renameReplaces: bool

    constructor (renameReplaces: bool)
      ensures files == map[] && this.renameReplaces == renameReplaces
    {
      files, this.renameReplaces := map[], renameReplaces;
    }

    // `budget` is how many file operations succeed before one fails.
    method Upsert(session: Id, run: Id, json: string, budget: nat) returns (saved: bool)
      modifies this
      ensures
        var occupied := !renameReplaces && SnapshotFile(session, run) in old(files);
        && (saved <==> budget >= if occupied then 4 else 3)
        && files == (if saved then Upserted(old(files), session, run, json)
                     else if budget < 2 then old(files)
                     else Interrupted(old(files), session, run, json, budget == 3))
    {
      TemporaryIsNotSnapshot(session, run, session, run);
      hide SnapshotFile, TemporaryFile;
      // The directory, then the temporary file.
      if budget < 2 {
        return false;
      }
      var path, temporary := SnapshotFile(session, run), TemporaryFile(session, run);
      files := files[temporary := json];
      if renameReplaces || path !in files {
        if budget == 2 {
          return false;
        }
      } else {
        if budget == 2 {
          return false;
        }
        files := files - {path};
        if budget == 3 {
          return false;
        }
      }
      files := (files - {temporary})[path := json];
      return true;
    }

    method Get(session: Id, run: Id) returns (json: Option<string>)
      ensures json == Found(files, session, run)
    {
      var path := SnapshotFile(session, run);
      if path in files {
        return Some(files[path]);
      }
      return None;
    }

    method List(session: Id, clock: Clock, limit: Option<nat>) returns (contents: seq<string>)
      ensures IsListing(files, session, clock, limit, contents)
      ensures ShowsNewest(files, session, clock, limit, contents)
    {
      var dir := SessionDir(session);
      hide SessionDir, IsListed, NewestFirst, Contents, TimeOf;
      var listed := set p | p in files && IsListed(dir, p);
      var pending := listed;
      var items: seq<Item> := [];
      ghost var paths: seq<Path> := [];
      while pending != {}
        invariant pending <= listed
        invariant forall p :: p in paths <==> p in listed && p !in pending
        invariant forall i, j :: 0 <= i < j < |paths| ==> paths[i] != paths[j]
        invariant AreItems(files, clock, paths, items)
        decreases |pending|
      {
        var path :| path in pending;
        items := items + [Item(TimeOf(clock, path, files[path]), files[path])];
        paths := paths + [path];
        pending := pending - {path};
      }
      var sorted := NewestFirst(items);
      contents := Contents(if limit.Some? && limit.value < |sorted| then sorted[..limit.value] else sorted);
      assert ListsSession(files, session, paths) && contents == Newest(items, limit);
      NewestIsShown(files, session, clock, limit, paths, items);
    }

    method Delete(session: Id)
      modifies this
      ensures files == Deleted(old(files), session)
    {
      files := map path | path in files && !IsUnder(SessionDir(session), path) :: files[path];
    }
  }

  lemma {:induction false} InsertKeepsItems(items: seq<Item>, item: Item)
    ensures multiset(InsertItem(items, item)) == multiset(items) + multiset{item}
    ensures |InsertItem(items, item)| == |items| + 1
  {
    if items != [] && items[|items| - 1].createdAt < item.createdAt {
      InsertKeepsItems(items[..|items| - 1], item);
      assert items == items[..|items| - 1] + [items[|items| - 1]];
    }
  }

  // Sorting loses and invents nothing.
  lemma {:induction false} SortKeepsItems(items: seq<Item>)
    ensures multiset(NewestFirst(items)) == multiset(items)
    ensures |NewestFirst(items)| == |items|
  {
    if items != [] {
      SortKeepsItems(items[..|items| - 1]);
      InsertKeepsItems(NewestFirst(items[..|items| - 1]), items[|items| - 1]);
      assert items == items[..|items| - 1] + [items[|items| - 1]];
    }
  }

  predicate IsNewestFirst(items: seq<Item>) {
    forall i, j :: 0 <= i < j < |items| ==> items[i].createdAt >= items[j].createdAt
  }

  lemma {:induction false} InsertKeepsOrder(items: seq<Item>, item: Item)
    requires IsNewestFirst(items)
    ensures IsNewestFirst(InsertItem(items, item))
  {
    if items != [] && items[|items| - 1].createdAt < item.createdAt {
      var front, last := items[..|items| - 1], items[|items| - 1];
      var inserted := InsertItem(front, item);
      InsertKeepsOrder(front, item);
      InsertKeepsItems(front, item);
      forall i | 0 <= i < |inserted| ensures inserted[i].createdAt >= last.createdAt {
        assert inserted[i] in multiset(inserted);
        if inserted[i] != item {
          assert inserted[i] in front;
          var j :| 0 <= j < |front| && front[j] == inserted[i];
          assert items[j].createdAt >= last.createdAt;
        }
      }
    } else if items != [] {
      assert forall i :: 0 <= i < |items| ==> items[i].createdAt >= items[|items| - 1].createdAt;
    }
  }

  lemma {:induction false} SortSorts(items: seq<Item>)
    ensures IsNewestFirst(NewestFirst(items))
  {
    if items != [] {
      SortSorts(items[..|items| - 1]);
      InsertKeepsOrder(NewestFirst(items[..|items| - 1]), items[|items| - 1]);
    }
  }

  // ---------------------------------------------------------------------------
  // Names
  // ---------------------------------------------------------------------------

  lemma {:induction false} ExtensionOfJson(name: string)
    requires name != ""
    ensures ExtensionAt(name + ".json") == |name|
    ensures ExtensionAt(name + ".json.tmp") == |name| + 5
  {
    DotThenPlain(name, "json");
    assert name + "." + "json" == name + ".json";
    DotThenPlain(name + ".json", "tmp");
    assert name + ".json" + "." + "tmp" == name + ".json.tmp";
  }

  lemma {:induction false} DotThenPlain(name: string, extension: string)
    requires name != "" && forall i :: 0 <= i < |extension| ==> extension[i] != '.'
    ensures ExtensionAt(name + "." + extension) == |name|
  {
    var full := name + "." + extension;
    if extension == "" {
      assert full[..|full| - 1] == name;
    } else {
      assert full[..|full| - 1] == name + "." + extension[..|extension| - 1];
      DotThenPlain(name, extension[..|extension| - 1]);
    }
  }

  lemma TemporaryName(session: Id, run: Id)
    ensures TemporaryFile(session, run) == SessionDir(session) + [Escaped(run) + ".json.tmp"]
  {
    NamesAreComponents(run);
    ExtensionOfJson(Escaped(run));
    hide SessionDir, Escaped, ExtensionAt;
    assert (Escaped(run) + ".json")[..|Escaped(run)|] == Escaped(run);
    assert Escaped(run) + "." + "json.tmp" == Escaped(run) + ".json.tmp";
  }

  lemma TemporaryIsNotSnapshot(session: Id, run: Id, session': Id, run': Id)
    ensures TemporaryFile(session, run) != SnapshotFile(session', run')
  {
    TemporaryName(session, run);
    hide TemporaryFile, Escaped, SessionDir;
    var x, y := Escaped(run) + ".json.tmp", Escaped(run') + ".json";
    assert x[|x| - 1] == 'p' && y[|y| - 1] == 'n';
    var a, b := TemporaryFile(session, run), SnapshotFile(session', run');
    assert a[|a| - 1] == x && b[|b| - 1] == y;
  }

  // ---------------------------------------------------------------------------
  // The tree as a map
  // ---------------------------------------------------------------------------

  predicate Ordinary(session: Id) {
    session != [] && session != DOT && session != DOT_DOT
  }

  predicate IsKey(session: Id, run: Id) {
    Ordinary(session) && run != []
  }

  // The file of a session and run, from the data directory on.
  lemma SnapshotPath(session: Id, run: Id)
    requires IsKey(session, run)
    ensures SnapshotFile(session, run) == ["model-input-snapshots", Escaped(session), Escaped(run) + ".json"]
    ensures IsOneComponent(Escaped(session)) && IsOneComponent(Escaped(run))
  {
    NamesAreComponents(session);
    NamesAreComponents(run);
  }

  lemma OrdinaryDir(session: Id)
    ensures
      SessionDir(session)
      == if session == DOT then [SNAPSHOT_DIR] else if session == DOT_DOT then [] else [SNAPSHOT_DIR, Escaped(session)]
  {
    NamesAreComponents(session);
  }

  // Different keys have different files, and only the files of a session are in its
  // directory.
  lemma KeysAreApart(a: Id, r: Id, b: Id, q: Id)
    requires IsKey(a, r) && IsKey(b, q)
    ensures SnapshotFile(a, r) == SnapshotFile(b, q) <==> a == b && r == q
    ensures IsUnder(SessionDir(a), SnapshotFile(b, q)) <==> a == b
  {
    OrdinaryDir(a);
    OrdinaryDir(b);
    SharedNames(a, b);
    SharedNames(r, q);
    hide SessionDir, Escaped;
    var x, y := SnapshotFile(a, r), SnapshotFile(b, q);
    assert x[1] == Escaped(a) && y[1] == Escaped(b) && SessionDir(a)[1] == Escaped(a);
    assert x[2] == Escaped(r) + ".json" && y[2] == Escaped(q) + ".json";
    assert x[2][..|x[2]| - 5] == Escaped(r) && y[2][..|y[2]| - 5] == Escaped(q);
  }

  type Snapshots = map<(Id, Id), string>

  function Entry(m: Snapshots, session: Id, run: Id): Option<string> {
    if (session, run) in m then Some(m[(session, run)]) else None
  }

  ghost predicate Represents(files: Files, m: Snapshots) {
    forall session: Id, run: Id :: IsKey(session, run) ==> Found(files, session, run) == Entry(m, session, run)
  }

  function Without(m: Snapshots, session: Id): Snapshots {
    map k | k in m && k.0 != session :: m[k]
  }

  function Kept(m: Snapshots, session: Id, run: Id, lost: bool): Snapshots {
    if lost then m - {(session, run)} else m
  }

  lemma StopKeepsOther(files: Files, session: Id, run: Id, json: string, lost: bool, s: Id, r: Id)
    requires IsKey(session, run) && IsKey(s, r)
    ensures Found(Interrupted(files, session, run, json, lost), s, r)
         == if lost && s == session && r == run then None else Found(files, s, r)
  {
    KeysAreApart(session, run, s, r);
    TemporaryIsNotSnapshot(session, run, s, r);
    hide SnapshotFile, TemporaryFile, IsKey;
  }

  // A stopped upsert changes nothing, or loses the one snapshot it was to replace.
  lemma StopKeepsOthers(files: Files, m: Snapshots, session: Id, run: Id, json: string, lost: bool)
    requires Represents(files, m) && IsKey(session, run)
    ensures Represents(Interrupted(files, session, run, json, lost), Kept(m, session, run, lost))
  {
    forall s: Id, r: Id | IsKey(s, r)
      ensures Found(Interrupted(files, session, run, json, lost), s, r) == Entry(Kept(m, session, run, lost), s, r)
    {
      StopKeepsOther(files, session, run, json, lost, s, r);
      hide Found, Interrupted, IsKey;
      assert Found(files, s, r) == Entry(m, s, r);
    }
  }

  lemma UpsertIsUpdate(files: Files, m: Snapshots, session: Id, run: Id, json: string)
    requires Represents(files, m) && IsKey(session, run)
    ensures Represents(Upserted(files, session, run, json), m[(session, run) := json])
  {
    forall s: Id, r: Id | IsKey(s, r)
      ensures Found(Upserted(files, session, run, json), s, r) == Entry(m[(session, run) := json], s, r)
    {
      KeysAreApart(session, run, s, r);
      TemporaryIsNotSnapshot(session, run, s, r);
      hide SnapshotFile, TemporaryFile;
      assert Found(files, s, r) == Entry(m, s, r);
    }
  }

  lemma DeleteIsRemoval(files: Files, m: Snapshots, session: Id)
    requires Represents(files, m) && Ordinary(session)
    ensures Represents(Deleted(files, session), Without(m, session))
  {
    forall s: Id, r: Id | IsKey(s, r)
      ensures Found(Deleted(files, session), s, r) == Entry(Without(m, session), s, r)
    {
      KeysAreApart(session, r, s, r);
      hide SnapshotFile, SessionDir, IsUnder;
      assert Found(files, s, r) == Entry(m, s, r);
    }
  }

  datatype Change =
    | Put(session: Id, run: Id, json: string)
    | Stopped(session: Id, run: Id, json: string, lost: bool)
    | Remove(session: Id)

  predicate IsOrdinary(change: Change) {
    if change.Remove? then Ordinary(change.session) else IsKey(change.session, change.run)
  }

  function Tree(changes: seq<Change>): Files {
    if changes == [] then map[]
    else
      match changes[|changes| - 1]
      case Put(session, run, json) => Upserted(Tree(changes[..|changes| - 1]), session, run, json)
      case Stopped(session, run, json, lost) => Interrupted(Tree(changes[..|changes| - 1]), session, run, json, lost)
      case Remove(session) => Deleted(Tree(changes[..|changes| - 1]), session)
  }

  function Meaning(changes: seq<Change>): Snapshots {
    if changes == [] then map[]
    else
      match changes[|changes| - 1]
      case Put(session, run, json) => Meaning(changes[..|changes| - 1])[(session, run) := json]
      case Stopped(session, run, _, lost) => Kept(Meaning(changes[..|changes| - 1]), session, run, lost)
      case Remove(session) => Without(Meaning(changes[..|changes| - 1]), session)
  }

  // After any changes, stopped ones among them, the tree is the map that the changes
  // make: whatever is asked for, the file found is the last one put there and not
  // removed since.
  lemma {:induction false} TreeIsMap(changes: seq<Change>)
    requires forall i :: 0 <= i < |changes| ==> IsOrdinary(changes[i])
    ensures Represents(Tree(changes), Meaning(changes))
  {
    hide Upserted, Interrupted, Deleted, Without, Kept, Represents;
    if changes == [] {
      NothingStored();
    } else {
      var before, last := changes[..|changes| - 1], changes[|changes| - 1];
      TreeIsMap(before);
      assert IsOrdinary(last);
      match last {
        case Put(session, run, json) => UpsertIsUpdate(Tree(before), Meaning(before), session, run, json);
        case Stopped(session, run, json, lost) =>
          StopKeepsOthers(Tree(before), Meaning(before), session, run, json, lost);
        case Remove(session) => DeleteIsRemoval(Tree(before), Meaning(before), session);
      }
    }
  }

  // Every snapshot file there is was put there for some key.
  ghost predicate OnlySnapshots(files: Files, m: Snapshots) {
    && (forall k :: k in m ==> IsKey(k.0, k.1))
    && forall p :: p in files && p != [] && Extension(p[|p| - 1]) == Some("json") ==>
         exists k :: k in m && p == SnapshotFile(k.0, k.1)
  }

  lemma PutKeepsOnlySnapshots(files: Files, m: Snapshots, session: Id, run: Id, json: string)
    requires OnlySnapshots(files, m) && IsKey(session, run)
    ensures OnlySnapshots(Upserted(files, session, run, json), m[(session, run) := json])
  {
    hide SnapshotFile, TemporaryFile, Extension, IsKey;
    var after, m' := Upserted(files, session, run, json), m[(session, run) := json];
    forall p | p in after && p != [] && Extension(p[|p| - 1]) == Some("json")
      ensures exists k :: k in m' && p == SnapshotFile(k.0, k.1)
    {
      if p == SnapshotFile(session, run) {
        assert (session, run) in m';
      } else {
        var k :| k in m && p == SnapshotFile(k.0, k.1);
        assert k in m';
      }
    }
  }

  lemma StopKeepsOnlySnapshots(files: Files, m: Snapshots, session: Id, run: Id, json: string, lost: bool)
    requires OnlySnapshots(files, m) && IsKey(session, run)
    ensures OnlySnapshots(Interrupted(files, session, run, json, lost), Kept(m, session, run, lost))
  {
    TemporaryIsNotListed(session, run);
    hide SnapshotFile, TemporaryFile, Extension, IsKey;
    var after, m' := Interrupted(files, session, run, json, lost), Kept(m, session, run, lost);
    forall p | p in after && p != [] && Extension(p[|p| - 1]) == Some("json")
      ensures exists k :: k in m' && p == SnapshotFile(k.0, k.1)
    {
      assert p != TemporaryFile(session, run);
      var k :| k in m && p == SnapshotFile(k.0, k.1);
      assert k in m';
    }
  }

  lemma TemporaryIsNotListed(session: Id, run: Id)
    ensures
      var p := TemporaryFile(session, run);
      p != [] && Extension(p[|p| - 1]) == Some("tmp")
  {
    TemporaryName(session, run);
    NamesAreComponents(run);
    ExtensionOfJson(Escaped(run));
    hide SessionDir, Escaped, ExtensionAt, TemporaryFile;
    assert (Escaped(run) + ".json.tmp")[|Escaped(run)| + 6..] == "tmp";
  }

  lemma RemoveKeepsOnlySnapshots(files: Files, m: Snapshots, session: Id)
    requires OnlySnapshots(files, m) && Ordinary(session)
    ensures OnlySnapshots(Deleted(files, session), Without(m, session))
  {
    hide SnapshotFile, SessionDir, Extension, IsUnder;
    forall p | p in Deleted(files, session) && p != [] && Extension(p[|p| - 1]) == Some("json")
      ensures exists k :: k in Without(m, session) && p == SnapshotFile(k.0, k.1)
    {
      var k :| k in m && p == SnapshotFile(k.0, k.1);
      KeysAreApart(session, k.1, k.0, k.1);
      assert k in Without(m, session);
    }
  }

  lemma {:induction false} TreeHasOnlySnapshots(changes: seq<Change>)
    requires forall i :: 0 <= i < |changes| ==> IsOrdinary(changes[i])
    ensures OnlySnapshots(Tree(changes), Meaning(changes))
  {
    hide Upserted, Interrupted, Deleted, Without, Kept, OnlySnapshots;
    if changes == [] {
      NothingStored();
    } else {
      var before, last := changes[..|changes| - 1], changes[|changes| - 1];
      TreeHasOnlySnapshots(before);
      assert IsOrdinary(last);
      match last {
        case Put(session, run, json) => PutKeepsOnlySnapshots(Tree(before), Meaning(before), session, run, json);
        case Stopped(session, run, json, lost) =>
          StopKeepsOnlySnapshots(Tree(before), Meaning(before), session, run, json, lost);
        case Remove(session) => RemoveKeepsOnlySnapshots(Tree(before), Meaning(before), session);
      }
    }
  }

  lemma SnapshotIsListed(session: Id, run: Id)
    ensures IsListed(SessionDir(session), SnapshotFile(session, run))
  {
    SnapshotExtension(run);
    hide SessionDir, Escaped, Extension;
    var path := SnapshotFile(session, run);
    assert path[|SessionDir(session)|] == Escaped(run) + ".json";
  }

  lemma SnapshotExtension(run: Id)
    ensures Extension(Escaped(run) + ".json") == Some("json")
  {
    NamesAreComponents(run);
    ExtensionOfJson(Escaped(run));
    hide Escaped, ExtensionAt;
    assert (Escaped(run) + ".json")[|Escaped(run)| + 1..] == "json";
  }

  // Listing a session reads exactly its snapshots: temporary files and other sessions
  // are never in it.
  lemma ListingIsExact(changes: seq<Change>, session: Id, path: Path)
    requires Ordinary(session) && forall i :: 0 <= i < |changes| ==> IsOrdinary(changes[i])
    ensures
      path in Tree(changes) && IsListed(SessionDir(session), path)
      <==> exists run :: (session, run) in Meaning(changes) && path == SnapshotFile(session, run)
  {
    hide Tree, Meaning, SnapshotFile, SessionDir, IsListed, IsOrdinary, Extension;
    TreeIsMap(changes);
    TreeHasOnlySnapshots(changes);
    var files, m := Tree(changes), Meaning(changes);
    if path in files && IsListed(SessionDir(session), path) {
      ListedIsUnder(SessionDir(session), path);
      var k :| k in m && path == SnapshotFile(k.0, k.1);
      KeysAreApart(session, k.1, k.0, k.1);
      assert k == (session, k.1);
    }
    if run :| (session, run) in m && path == SnapshotFile(session, run) {
      assert IsKey((session, run).0, (session, run).1);
      SnapshotIsListed(session, run);
      assert Found(files, session, run) == Entry(m, session, run);
    }
  }

  lemma ListedIsUnder(dir: Path, path: Path)
    requires IsListed(dir, path)
    ensures IsUnder(dir, path) && path != [] && Extension(path[|path| - 1]) == Some("json")
  {
  }

  lemma NothingStored()
    ensures OnlySnapshots(map[], map[])
    ensures Represents(map[], map[])
  {
  }

  ghost predicate DeletesOnlyItsOwn(session: Id) {
    forall files: Files, s: Id, r: Id :: IsKey(s, r) && s != session ==>
      Found(Deleted(files, session), s, r) == Found(files, s, r)
  }

  // Deleting a session leaves all others alone exactly if its id is neither "." nor
  // "..": those two name the directory of all snapshots and the data directory.
  lemma DeleteIsPrivateExactly(session: Id)
    requires session != []
    ensures DeletesOnlyItsOwn(session) <==> session !in {DOT, DOT_DOT}
  {
    if session in {DOT, DOT_DOT} {
      var id: Id := ['a' as int];
      var files: Files := map[SnapshotFile(id, id) := "{}"];
      OrdinaryDir(session);
      OrdinaryDir(id);
      assert IsKey(id, id) && id != session;
      assert Found(files, id, id) == Some("{}");
      assert IsUnder(SessionDir(session), SnapshotFile(id, id));
      assert Found(Deleted(files, session), id, id) == None;
    } else {
      forall files: Files, s: Id, r: Id | IsKey(s, r) && s != session
        ensures Found(Deleted(files, session), s, r) == Found(files, s, r)
      {
        KeysAreApart(session, r, s, r);
      }
    }
  }
}
