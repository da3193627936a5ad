/** The profile registry file (`src/profile_registry.rs`).

Any number of processes hold in-memory copies of one document on disk. A change
locks, reloads, edits the reloaded copy and renames a new file into place. The class
is that code; the step system interleaves it between processes, down to the
temporary file, with processes that may die at any point.
*/
module ProfileRegistry {
  import opened Text
  import opened Ordering

  datatype RegisteredProfile = RegisteredProfile(alias: string, id: string, manifestPath: string, registeredAt: string)

  type Document = seq<RegisteredProfile>

  // `Repair` carries the manifest paths that exist when it runs.
  datatype Operation =
    | Register(entry: RegisteredProfile, replace: bool)
    | Unregister(alias: string)
    | Repair(existing: set<string>)

  function Aliases(document: Document): (aliases: seq<string>)
    ensures |aliases| == |document|
    ensures forall i :: 0 <= i < |document| ==> aliases[i] == document[i].alias
  {
    seq(|document|, i requires 0 <= i < |document| => document[i].alias)
  }

  // Aliases are unique and in order.
  predicate WellFormed(document: Document) {
    forall i, j :: 0 <= i < j < |document| ==> Less(document[i].alias, document[j].alias)
  }

  predicate Has(document: Document, alias: string) {
    exists i :: 0 <= i < |document| && document[i].alias == alias
  }

  // The first entry with an alias, or the number of entries.
  function PositionOf(document: Document, alias: string): (at: nat)
    ensures at <= |document|
    ensures forall i :: 0 <= i < at ==> document[i].alias != alias
    ensures at < |document| ==> document[at].alias == alias
  {
    if document == [] then 0
    else
      var front := document[..|document| - 1];
      if PositionOf(front, alias) < |front| then PositionOf(front, alias)
      else if document[|document| - 1].alias == alias then |document| - 1
      else |document|
  }

  function RemoveFirst(document: Document, alias: string): Document {
    var at := PositionOf(document, alias);
    if at < |document| then document[..at] + document[at + 1..] else document
  }

  // `Vec::retain`.
  function Retain(document: Document, keep: RegisteredProfile -> bool): Document {
    if document == [] then []
    else
      var front, last := Retain(document[..|document| - 1], keep), document[|document| - 1];
      if keep(last) then front + [last] else front
  }

  function NotNamed(alias: string): RegisteredProfile -> bool {
    (entry: RegisteredProfile) => entry.alias != alias
  }

  function ManifestIn(existing: set<string>): RegisteredProfile -> bool {
    (entry: RegisteredProfile) => entry.manifestPath in existing
  }

  // A stable sort by alias.
  function InsertByAlias(document: Document, entry: RegisteredProfile): Document {
    if document != [] && Less(entry.alias, document[|document| - 1].alias)
    then InsertByAlias(document[..|document| - 1], entry) + [document[|document| - 1]]
    else document + [entry]
  }

  function SortByAlias(document: Document): Document {
    if document == [] then []
    else InsertByAlias(SortByAlias(document[..|document| - 1]), document[|document| - 1])
  }

  // The document an operation saves, if it saves one.
  function Perform(document: Document, operation: Operation): Option<Document> {
    match operation
    case Register(entry, replace) =>
      if Has(document, entry.alias) && !replace then None
      else Some(SortByAlias(Retain(document, NotNamed(entry.alias)) + [entry]))
    case Unregister(alias) => if Has(document, alias) then Some(RemoveFirst(document, alias)) else None
    case Repair(existing) =>
      var kept := Retain(document, ManifestIn(existing));
      if |kept| < |document| then Some(kept) else None
  }

  // An alias may be written with a leading '@'.
  function AliasOf(reference: string): string {
    if reference != "" && reference[0] == '@' then reference[1..] else reference
  }

  // ---------------------------------------------------------------------------
  // One process
  // ---------------------------------------------------------------------------

  datatype Outcome = Registered(entry: RegisteredProfile) | Removed(entry: RegisteredProfile) | Repaired(removed: nat)
    | AliasConflict | NotFound | Busy

  class RegistryFile {
    var disk: Document
    var locked: bool

    constructor ()
      ensures disk == [] && !locked
    {
      disk, locked := [], false;
    }
  }

  class Registry {
    const file: RegistryFile
    var document: Document

    // The copy may be stale from the start.
    constructor (file: RegistryFile, document: Document)
      ensures this.file == file && this.document == document
    {
      this.file, this.document := file, document;
    }

    method Acquire() returns (acquired: bool)
      modifies file
      ensures acquired <==> !old(file.locked)
      ensures file.locked && file.disk == old(file.disk)
    {
      if file.locked {
        return false;
      }
      file.locked := true;
      return true;
    }

    method Release()
      modifies file
      ensures !file.locked && file.disk == old(file.disk)
    {
      file.locked := false;
    }

    method SaveUnlocked()
      modifies file
      ensures file.disk == document && file.locked == old(file.locked)
    {
      file.disk := document;
    }

    method RegisterProfile(entry: RegisteredProfile, replace: bool) returns (outcome: Outcome)
      modifies this, file
      ensures file.locked == old(file.locked)
      ensures
        var saved := Perform(old(file.disk), Register(entry, replace));
        if old(file.locked) then outcome == Busy && file.disk == old(file.disk) && document == old(document)
        else if saved.Some? then outcome == Registered(entry) && file.disk == document == saved.value
        else outcome == AliasConflict && file.disk == document == old(file.disk)
    {
      var acquired := Acquire();
      if !acquired {
        return Busy;
      }
      document := file.disk;
      if Has(document, entry.alias) {
        if !replace {
          Release();
          return AliasConflict;
        }
      }
      document := Retain(document, NotNamed(entry.alias));
      document := document + [entry];
      document := SortByAlias(document);
      SaveUnlocked();
      Release();
      return Registered(entry);
    }

    method UnregisterAlias(reference: string) returns (outcome: Outcome)
      modifies this, file
      ensures file.locked == old(file.locked)
      ensures reference == "@" + AliasOf(reference) || (reference == AliasOf(reference) && !("@" <= reference))
      ensures
        var alias := AliasOf(reference);
        var saved := Perform(old(file.disk), Unregister(alias));
        if old(file.locked) then outcome == Busy && file.disk == old(file.disk) && document == old(document)
        else if saved.Some? then
          && file.disk == document == saved.value
          && outcome == Removed(old(file.disk)[PositionOf(old(file.disk), alias)])
        else outcome == NotFound && file.disk == document == old(file.disk)
    {
      var alias := AliasOf(reference);
      var acquired := Acquire();
      if !acquired {
        return Busy;
      }
      document := file.disk;
      var index := 0;
      while index < |document| && document[index].alias != alias
        invariant index <= |document|
        invariant forall i :: 0 <= i < index ==> document[i].alias != alias
      {
        index := index + 1;
      }
      if index == |document| {
        Release();
        return NotFound;
      }
      var removed := document[index];
      document := document[..index] + document[index + 1..];
      SaveUnlocked();
      Release();
      return Removed(removed);
    }

    method RepairRegistry(existing: set<string>) returns (outcome: Outcome)
      modifies this, file
      ensures file.locked == old(file.locked)
      ensures
        var saved := Perform(old(file.disk), Repair(existing));
        if old(file.locked) then outcome == Busy && file.disk == old(file.disk) && document == old(document)
        else if saved.Some? then file.disk == document == saved.value && outcome == Repaired(|old(file.disk)| - |document|)
        else outcome == Repaired(0) && file.disk == document == old(file.disk)
    {
      var acquired := Acquire();
      if !acquired {
        return Busy;
      }
      document := file.disk;
      var before := |document|;
      RetainShrinks(document, ManifestIn(existing));
      document := Retain(document, ManifestIn(existing));
      var removed := before - |document|;
      if removed > 0 {
        SaveUnlocked();
      }
      Release();
      return Repaired(removed);
    }
  }

  lemma {:induction false} RetainConcat(a: Document, b: Document, keep: RegisteredProfile -> bool)
    ensures Retain(a + b, keep) == Retain(a, keep) + Retain(b, keep)
  {
    if b == [] {
      assert a + b == a;
    } else {
      var front := b[..|b| - 1];
      RetainConcat(a, front, keep);
      assert (a + b)[..|a + b| - 1] == a + front;
    }
  }

  lemma {:induction false} RetainAll(document: Document, keep: RegisteredProfile -> bool)
    requires forall i :: 0 <= i < |document| ==> keep(document[i])
    ensures Retain(document, keep) == document
  {
    if document != [] {
      var front, last := document[..|document| - 1], document[|document| - 1];
      RetainAll(front, keep);
      assert document == front + [last];
    }
  }

  lemma {:induction false} RetainShrinks(document: Document, keep: RegisteredProfile -> bool)
    ensures |Retain(document, keep)| <= |document|
    ensures |Retain(document, keep)| == |document| ==> Retain(document, keep) == document
  {
    if document != [] {
      var front, last := document[..|document| - 1], document[|document| - 1];
      RetainShrinks(front, keep);
      assert document == front + [last];
    }
  }

  lemma {:induction false} RetainMembers(document: Document, keep: RegisteredProfile -> bool)
    ensures forall e :: e in Retain(document, keep) <==> e in document && keep(e)
  {
    if document != [] {
      var front, last := document[..|document| - 1], document[|document| - 1];
      RetainMembers(front, keep);
      assert document == front + [last];
    }
  }

  lemma {:induction false} RetainKeepsOrder(document: Document, keep: RegisteredProfile -> bool)
    requires WellFormed(document)
    ensures WellFormed(Retain(document, keep))
  {
    hide Less;
    if document != [] {
      var front, last := document[..|document| - 1], document[|document| - 1];
      var kept := Retain(front, keep);
      RetainKeepsOrder(front, keep);
      RetainMembers(front, keep);
      forall i | 0 <= i < |kept| ensures Less(kept[i].alias, last.alias) {
        assert kept[i] in kept;
        var j :| 0 <= j < |front| && front[j] == kept[i];
        assert document[j] == front[j];
      }
      assert forall i, j :: 0 <= i < j < |kept| ==> Less(kept[i].alias, kept[j].alias);
    }
  }

  lemma RetainAllButOne(before: Document, entry: RegisteredProfile, after: Document, keep: RegisteredProfile -> bool)
    requires !keep(entry)
    requires forall i :: 0 <= i < |before| ==> keep(before[i])
    requires forall i :: 0 <= i < |after| ==> keep(after[i])
    ensures Retain(before + [entry] + after, keep) == before + after
  {
    hide Retain;
    RetainConcat(before + [entry], after, keep);
    RetainConcat(before, [entry], keep);
    RetainAll(before, keep);
    RetainAll(after, keep);
    assert Retain([entry], keep) == [] by {
      RetainShrinks([entry], keep);
      RetainMembers([entry], keep);
    }
    assert before + [] + after == before + after;
  }

  // Where aliases are unique, removing the first entry with one is filtering it out.
  lemma RemoveIsFilter(document: Document, alias: string)
    requires WellFormed(document) && Has(document, alias)
    ensures RemoveFirst(document, alias) == Retain(document, NotNamed(alias))
  {
    hide Less, Retain, PositionOf;
    var index := PositionOf(document, alias);
    var before, after := document[..index], document[index + 1..];
    LessIrreflexive(document[index].alias);
    forall i | 0 <= i < |after| ensures after[i].alias != document[index].alias {
      assert Less(document[index].alias, document[index + 1 + i].alias);
    }
    RetainAllButOne(before, document[index], after, NotNamed(document[index].alias));
    assert document == before + [document[index]] + after;
  }

  // ---------------------------------------------------------------------------
  // The document as a map from aliases
  // ---------------------------------------------------------------------------

  function AsMap(document: Document): map<string, RegisteredProfile> {
    if document == [] then map[]
    else
      var last := document[|document| - 1];
      AsMap(document[..|document| - 1])[last.alias := last]
  }

  // What an operation means.
  function PerformMap(m: map<string, RegisteredProfile>, operation: Operation): Option<map<string, RegisteredProfile>> {
    match operation
    case Register(entry, replace) => if entry.alias in m && !replace then None else Some(m[entry.alias := entry])
    case Unregister(alias) => if alias in m then Some(m - {alias}) else None
    case Repair(existing) =>
      var kept := map alias | alias in m && m[alias].manifestPath in existing :: m[alias];
      if kept == m then None else Some(kept)
  }

  lemma {:induction false} MapOfDocument(document: Document)
    requires WellFormed(document)
    ensures forall a :: a in AsMap(document) <==> Has(document, a)
    ensures forall i :: 0 <= i < |document| ==>
      document[i].alias in AsMap(document) && AsMap(document)[document[i].alias] == document[i]
    ensures forall a :: a in AsMap(document) ==> AsMap(document)[a] in document && AsMap(document)[a].alias == a
  {
    hide Less;
    if document != [] {
      var front, last := document[..|document| - 1], document[|document| - 1];
      MapOfDocument(front);
      assert document == front + [last];
      forall i | 0 <= i < |front| ensures document[i].alias != last.alias {
        assert Less(document[i].alias, last.alias);
        LessIrreflexive(last.alias);
      }
      forall a ensures Has(document, a) <==> Has(front, a) || a == last.alias {
        HasSnoc(front, last, a);
      }
    }
  }

  lemma HasSnoc(front: Document, last: RegisteredProfile, alias: string)
    ensures Has(front + [last], alias) <==> Has(front, alias) || alias == last.alias
  {
    var document := front + [last];
    if Has(front, alias) {
      var i :| 0 <= i < |front| && front[i].alias == alias;
      assert document[i].alias == alias;
    }
    if alias == last.alias {
      assert document[|front|].alias == alias;
    }
  }

  // A well-formed document is the one sorted listing of its map.
  lemma DocumentIsListing(a: Document, b: Document)
    requires WellFormed(a) && WellFormed(b) && AsMap(a) == AsMap(b)
    ensures a == b
  {
    hide Less;
    MapOfDocument(a);
    MapOfDocument(b);
    forall k ensures k in Aliases(a) <==> k in Aliases(b) {
      AliasesHas(a, k);
      AliasesHas(b, k);
    }
    ListingIsUnique(Aliases(a), Aliases(b));
    assert |a| == |b|;
    forall i | 0 <= i < |a| ensures a[i] == b[i] {
      assert a[i] in a && b[i] in b;
      assert Aliases(a)[i] == Aliases(b)[i];
    }
  }

  lemma AliasesHas(document: Document, alias: string)
    ensures alias in Aliases(document) <==> Has(document, alias)
  {
  }

  lemma {:induction false} InsertKeepsOrder(document: Document, entry: RegisteredProfile)
    requires WellFormed(document) && !Has(document, entry.alias)
    ensures WellFormed(InsertByAlias(document, entry))
    ensures forall e :: e in InsertByAlias(document, entry) <==> e in document || e == entry
  {
    hide Less;
    if document != [] {
      var front, last := document[..|document| - 1], document[|document| - 1];
      assert document == front + [last];
      if Less(entry.alias, last.alias) {
        forall i | 0 <= i < |front| ensures front[i].alias != entry.alias {
          assert document[i].alias != entry.alias;
        }
        InsertKeepsOrder(front, entry);
        var inserted := InsertByAlias(front, entry);
        forall i | 0 <= i < |inserted| ensures Less(inserted[i].alias, last.alias) {
          assert inserted[i] in inserted;
          if inserted[i] != entry {
            var j :| 0 <= j < |front| && front[j] == inserted[i];
            assert Less(document[j].alias, last.alias);
          }
        }
      } else {
        assert last.alias != entry.alias;
        LessConnected(entry.alias, last.alias);
        forall i | 0 <= i < |document| ensures Less(document[i].alias, entry.alias) {
          if i < |front| {
            LessTransitive(document[i].alias, last.alias, entry.alias);
          }
        }
      }
    }
  }

  lemma {:induction false} SortedIsFixed(document: Document)
    requires WellFormed(document)
    ensures SortByAlias(document) == document
  {
    hide Less;
    if document != [] {
      var front, last := document[..|document| - 1], document[|document| - 1];
      SortedIsFixed(front);
      if front != [] {
        var previous := front[|front| - 1];
        assert Less(document[|document| - 2].alias, last.alias);
        if Less(last.alias, previous.alias) {
          LessTransitive(last.alias, previous.alias, last.alias);
          LessIrreflexive(last.alias);
        }
      }
    }
  }

  // Two maps filed by alias are equal when they come from documents with the same entries.
  lemma SameEntriesSameMap(document: Document, m: map<string, RegisteredProfile>)
    requires WellFormed(document)
    requires forall a :: a in m ==> m[a].alias == a
    requires forall e :: e in document <==> e.alias in m && m[e.alias] == e
    ensures AsMap(document) == m
  {
    MapOfDocument(document);
    forall a ensures a in m <==> a in AsMap(document) {
      if a in m {
        assert m[a] in document;
      }
      if a in AsMap(document) {
        assert AsMap(document)[a] in document;
      }
    }
    forall a | a in m ensures AsMap(document)[a] == m[a] {
      assert m[a] in document;
    }
  }

  // Editing the document does to its map what the operation means, and keeps aliases
  // unique and in order.
  lemma PerformRefinesMap(document: Document, operation: Operation)
    requires WellFormed(document)
    ensures
      var saved, meant := Perform(document, operation), PerformMap(AsMap(document), operation);
      && (saved.Some? <==> meant.Some?)
      && (saved.Some? ==> WellFormed(saved.value) && AsMap(saved.value) == meant.value)
  {
    hide Retain, RemoveFirst, AsMap, SortByAlias, InsertByAlias, WellFormed, Less;
    MapOfDocument(document);
    match operation
    case Register(entry, replace) => RegisterRefinesMap(document, entry);
    case Unregister(alias) =>
      if Has(document, alias) {
        RemoveIsFilter(document, alias);
      }
      RetainKeepsOrder(document, NotNamed(alias));
      RetainMembers(document, NotNamed(alias));
      SameEntriesSameMap(Retain(document, NotNamed(alias)), AsMap(document) - {alias});
    case Repair(existing) => RepairRefinesMap(document, existing);
  }

  lemma RegisterRefinesMap(document: Document, entry: RegisteredProfile)
    requires WellFormed(document)
    ensures
      var saved := SortByAlias(Retain(document, NotNamed(entry.alias)) + [entry]);
      WellFormed(saved) && AsMap(saved) == AsMap(document)[entry.alias := entry]
  {
    hide Retain, AsMap, InsertByAlias, WellFormed, Less;
    MapOfDocument(document);
    RetainKeepsOrder(document, NotNamed(entry.alias));
    RetainMembers(document, NotNamed(entry.alias));
    var kept := Retain(document, NotNamed(entry.alias));
    SortedIsFixed(kept);
    assert (kept + [entry])[..|kept|] == kept;
    forall i | 0 <= i < |kept| ensures kept[i].alias != entry.alias {
      assert kept[i] in kept;
    }
    InsertKeepsOrder(kept, entry);
    SameEntriesSameMap(InsertByAlias(kept, entry), AsMap(document)[entry.alias := entry]);
  }

  lemma RepairRefinesMap(document: Document, existing: set<string>)
    requires WellFormed(document)
    ensures
      var kept, meant := Retain(document, ManifestIn(existing)), PerformMap(AsMap(document), Repair(existing));
      && (|kept| < |document| <==> meant.Some?)
      && (meant.Some? ==> WellFormed(kept) && AsMap(kept) == meant.value)
  {
    hide Retain, AsMap, WellFormed, Less;
    var m := AsMap(document);
    var kept := Retain(document, ManifestIn(existing));
    var meant := map alias | alias in m && m[alias].manifestPath in existing :: m[alias];
    MapOfDocument(document);
    RetainKeepsOrder(document, ManifestIn(existing));
    RetainMembers(document, ManifestIn(existing));
    RetainShrinks(document, ManifestIn(existing));
    SameEntriesSameMap(kept, meant);
    if meant == m {
      DocumentIsListing(kept, document);
    }
  }
}
