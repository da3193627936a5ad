/** The directory of entities that a message may mention (`src/output_protocol.rs`). */
module EntityDirectory {
  import opened Text

  datatype EntityKind = User | Agent

  datatype Entity = Entity(reference: string, kind: EntityKind, name: string)

  ghost predicate IsFirst(entities: seq<Entity>, reference: string, i: int) {
    && 0 <= i < |entities| && entities[i].reference == reference
    && forall k :: 0 <= k < i ==> entities[k].reference != reference
  }

  // The first entity with a reference.
  function Lookup(entities: seq<Entity>, reference: string): Option<Entity> {
    if entities == [] then None
    else
      var found, last := Lookup(entities[..|entities| - 1], reference), entities[|entities| - 1];
      if found.None? && last.reference == reference then Some(last) else found
  }

  function AddOnce(list: seq<Entity>, entity: Entity): seq<Entity> {
    if Lookup(list, entity.reference).Some? then list else list + [entity]
  }

  function AddFound(list: seq<Entity>, entities: seq<Entity>, reference: Option<string>): seq<Entity> {
    if reference.None? then list
    else
      match Lookup(entities, reference.value)
      case None => list
      case Some(entity) => AddOnce(list, entity)
  }

  function AddAll(list: seq<Entity>, entities: seq<Entity>): seq<Entity> {
    if entities == [] then list
    else AddOnce(AddAll(list, entities[..|entities| - 1]), entities[|entities| - 1])
  }

  // The agent itself, then its caller, then everyone else.
  function Prioritized(entities: seq<Entity>, self: string, caller: Option<string>): seq<Entity> {
    AddAll(AddFound(AddFound([], entities, Some(self)), entities, caller), entities)
  }

  method Find(entities: seq<Entity>, reference: string) returns (found: Option<Entity>)
    ensures found == Lookup(entities, reference)
  {
    for i := 0 to |entities|
      invariant Lookup(entities[..i], reference) == None
    {
      assert entities[..i + 1][..i] == entities[..i];
      if entities[i].reference == reference {
        LookupStays(entities[..i + 1], entities[i + 1..], reference);
        assert entities == entities[..i + 1] + entities[i + 1..];
        return Some(entities[i]);
      }
    }
    assert entities[..|entities|] == entities;
    return None;
  }

  lemma {:induction false} LookupStays(a: seq<Entity>, b: seq<Entity>, reference: string)
    requires Lookup(a, reference).Some?
    ensures Lookup(a + b, reference) == Lookup(a, reference)
  {
    if b == [] {
      assert a + b == a;
    } else {
      assert (a + b)[..|a + b| - 1] == a + b[..|b| - 1];
      LookupStays(a, b[..|b| - 1], reference);
    }
  }

  lemma AddNothing(list: seq<Entity>)
    ensures AddAll(list, []) == list
  {
  }

  lemma AddOneMore(list: seq<Entity>, entities: seq<Entity>, i: nat)
    requires i < |entities|
    ensures AddAll(list, entities[..i + 1]) == AddOnce(AddAll(list, entities[..i]), entities[i])
  {
    assert entities[..i + 1][..i] == entities[..i];
  }

  class Context {
    const selfReference: string
    var entities: seq<Entity>

    constructor (selfReference: string)
      ensures this.selfReference == selfReference && entities == []
    {
      this.selfReference, entities := selfReference, [];
    }

    method PrioritizeEntities(callerReference: Option<string>)
      modifies this
      ensures entities == Prioritized(old(entities), selfReference, callerReference)
    {
      hide Lookup, AddAll;
      var prioritized: seq<Entity> := [];
      var references := [Some(selfReference), callerReference];
      ghost var steps := [[], AddFound([], entities, Some(selfReference)),
                          AddFound(AddFound([], entities, Some(selfReference)), entities, callerReference)];
      for i := 0 to 2
        invariant entities == old(entities)
        invariant prioritized == steps[i]
      {
        if references[i].Some? {
          var entity := Find(entities, references[i].value);
          if entity.Some? {
            var existing := Find(prioritized, entity.value.reference);
            if existing.None? {
              prioritized := prioritized + [entity.value];
            }
          }
        }
      }
      AddNothing(prioritized);
      for i := 0 to |entities|
        invariant entities == old(entities)
        invariant prioritized == AddAll(steps[2], entities[..i])
      {
        AddOneMore(steps[2], entities, i);
        var existing := Find(prioritized, entities[i].reference);
        if existing.None? {
          prioritized := prioritized + [entities[i]];
        }
      }
      assert entities[..|entities|] == entities;
      entities := prioritized;
    }
  }

  ghost predicate Distinct(entities: seq<Entity>) {
    forall i, j :: 0 <= i < j < |entities| ==> entities[i].reference != entities[j].reference
  }

  lemma {:induction false} LookupFinds(entities: seq<Entity>, reference: string)
    ensures Lookup(entities, reference).Some? <==> exists i :: 0 <= i < |entities| && entities[i].reference == reference
    ensures Lookup(entities, reference).Some? ==> Lookup(entities, reference).value.reference == reference
  {
    if entities != [] {
      var front, last := entities[..|entities| - 1], entities[|entities| - 1];
      LookupFinds(front, reference);
      if Lookup(front, reference).Some? {
        var i :| 0 <= i < |front| && front[i].reference == reference;
        assert entities[i].reference == reference;
      } else if last.reference == reference {
        assert entities[|entities| - 1].reference == reference;
      }
    }
  }

  lemma {:induction false} FirstIsFound(entities: seq<Entity>, reference: string, i: nat)
    requires IsFirst(entities, reference, i)
    ensures Lookup(entities, reference) == Some(entities[i])
  {
    var front := entities[..|entities| - 1];
    if i < |front| {
      FirstIsFound(front, reference, i);
    } else {
      LookupFinds(front, reference);
    }
  }

  lemma {:induction false} FoundIsFirst(entities: seq<Entity>, reference: string) returns (i: nat)
    requires Lookup(entities, reference).Some?
    ensures IsFirst(entities, reference, i)
  {
    var front := entities[..|entities| - 1];
    if Lookup(front, reference).Some? {
      i := FoundIsFirst(front, reference);
    } else {
      LookupFinds(front, reference);
      i := |front|;
      assert forall k :: 0 <= k < i ==> entities[k] == front[k];
    }
  }

  lemma AddOnceLookup(list: seq<Entity>, entity: Entity, reference: string)
    ensures
      Lookup(AddOnce(list, entity), reference)
      == if Lookup(list, reference).None? && entity.reference == reference then Some(entity) else Lookup(list, reference)
  {
    assert (list + [entity])[..|list|] == list;
  }

  lemma AddOnceDistinct(list: seq<Entity>, entity: Entity)
    requires Distinct(list)
    ensures Distinct(AddOnce(list, entity))
  {
    LookupFinds(list, entity.reference);
  }

  lemma {:induction false} AddAllLookup(list: seq<Entity>, entities: seq<Entity>, reference: string)
    ensures
      Lookup(AddAll(list, entities), reference)
      == if Lookup(list, reference).Some? then Lookup(list, reference) else Lookup(entities, reference)
  {
    hide AddOnce;
    if entities != [] {
      var front, last := entities[..|entities| - 1], entities[|entities| - 1];
      AddAllLookup(list, front, reference);
      AddOnceLookup(AddAll(list, front), last, reference);
    }
  }

  lemma {:induction false} AddAllExtends(list: seq<Entity>, entities: seq<Entity>)
    ensures list <= AddAll(list, entities)
    ensures Distinct(list) ==> Distinct(AddAll(list, entities))
  {
    hide AddOnce, Distinct;
    if entities != [] {
      var front, last := entities[..|entities| - 1], entities[|entities| - 1];
      AddAllExtends(list, front);
      AddOnceExtends(AddAll(list, front), last);
      if Distinct(list) {
        AddOnceDistinct(AddAll(list, front), last);
      }
    }
  }

  lemma AddOnceExtends(list: seq<Entity>, entity: Entity)
    ensures list <= AddOnce(list, entity)
  {
  }

  lemma NothingDistinct()
    ensures Distinct([])
  {
  }

  lemma FoundLookup(list: seq<Entity>, entities: seq<Entity>, found: Option<string>, reference: string)
    requires Distinct(list) && Lookup(list, reference) in {None, Lookup(entities, reference)}
    ensures Distinct(AddFound(list, entities, found))
    ensures Lookup(AddFound(list, entities, found), reference) in {None, Lookup(entities, reference)}
  {
    hide AddOnce, Lookup, Distinct;
    if found.Some? && Lookup(entities, found.value).Some? {
      LookupFinds(entities, found.value);
      AddOnceLookup(list, Lookup(entities, found.value).value, reference);
      AddOnceDistinct(list, Lookup(entities, found.value).value);
    }
  }

  // The directory keeps every entity that a lookup could find, once: lookups by
  // reference do not change.
  lemma PrioritizedKeepsLookups(entities: seq<Entity>, self: string, caller: Option<string>, reference: string)
    ensures Lookup(Prioritized(entities, self, caller), reference) == Lookup(entities, reference)
    ensures Distinct(Prioritized(entities, self, caller))
  {
    hide AddAll, AddOnce, Lookup, AddFound, Distinct;
    LookupNothing();
    NothingDistinct();
    FoundLookup([], entities, Some(self), reference);
    var one := AddFound([], entities, Some(self));
    FoundLookup(one, entities, caller, reference);
    AddAllLookup(AddFound(one, entities, caller), entities, reference);
    AddAllExtends(AddFound(one, entities, caller), entities);
  }

  // The agent itself comes first and its caller next, if they are in the directory.
  lemma PrioritizedLeads(entities: seq<Entity>, self: string, caller: Option<string>)
    ensures
      var list, first := Prioritized(entities, self, caller), Lookup(entities, self);
      && (first.Some? ==> list != [] && list[0] == first.value)
      && (caller.Some? && caller.value != self && Lookup(entities, caller.value).Some? ==>
            var at := if first.Some? then 1 else 0;
            |list| > at && list[at] == Lookup(entities, caller.value).value)
  {
    var two := AddFound(AddFound([], entities, Some(self)), entities, caller);
    FoundLead(entities, self, caller);
    hide AddAll, AddFound, Lookup;
    AddAllExtends(two, entities);
    assert forall i :: 0 <= i < |two| ==> AddAll(two, entities)[i] == two[i];
  }

  lemma {:induction false} FoundLead(entities: seq<Entity>, self: string, caller: Option<string>)
    ensures
      var list, first := AddFound(AddFound([], entities, Some(self)), entities, caller), Lookup(entities, self);
      && (first.Some? ==> list != [] && list[0] == first.value)
      && (caller.Some? && caller.value != self && Lookup(entities, caller.value).Some? ==>
            var at := if first.Some? then 1 else 0;
            |list| > at && list[at] == Lookup(entities, caller.value).value)
  {
    hide Lookup;
    LookupNothing();
    LookupFinds(entities, self);
    var one := AddFound([], entities, Some(self));
    if caller.Some? {
      LookupFinds(entities, caller.value);
      if Lookup(entities, self).Some? {
        LookupOne(Lookup(entities, self).value, caller.value);
        assert one == [Lookup(entities, self).value];
      }
    }
  }

  lemma LookupNothing()
    ensures forall reference :: Lookup([], reference).None?
  {
  }

  lemma LookupOne(entity: Entity, reference: string)
    ensures Lookup([entity], reference) == if entity.reference == reference then Some(entity) else None
  {
    assert [entity][..0] == [];
  }

  // The first place of a reference, or the number of entities.
  function Place(entities: seq<Entity>, reference: string): (at: nat)
    ensures at <= |entities|
  {
    if entities == [] then 0
    else
      var front := entities[..|entities| - 1];
      if Place(front, reference) < |front| then Place(front, reference)
      else if entities[|entities| - 1].reference == reference then |entities| - 1
      else |entities|
  }

  lemma {:induction false} PlaceFinds(entities: seq<Entity>, reference: string)
    ensures Place(entities, reference) < |entities| <==> Lookup(entities, reference).Some?
  {
    if entities != [] {
      PlaceFinds(entities[..|entities| - 1], reference);
    }
  }

  lemma PlaceAfterAdd(list: seq<Entity>, entity: Entity, reference: string)
    ensures
      var after := AddOnce(list, entity);
      if Place(list, reference) < |list| then Place(after, reference) == Place(list, reference)
      else if entity.reference == reference then Place(after, reference) == |list| == |after| - 1
      else Place(after, reference) == |after|
  {
    PlaceFinds(list, reference);
    assert (list + [entity])[..|list|] == list;
  }

  lemma {:induction false} AddAllKeepsOrder(list: seq<Entity>, entities: seq<Entity>, a: string, b: string)
    requires Lookup(list, a).None? && Lookup(list, b).None?
    requires Place(entities, a) < Place(entities, b) < |entities|
    ensures Place(AddAll(list, entities), a) < Place(AddAll(list, entities), b) < |AddAll(list, entities)|
  {
    hide AddOnce, Lookup;
    var front, last := entities[..|entities| - 1], entities[|entities| - 1];
    var before := AddAll(list, front);
    PlaceAfterAdd(before, last, a);
    PlaceAfterAdd(before, last, b);
    AddOnceExtends(before, last);
    if Place(front, b) < |front| {
      AddAllKeepsOrder(list, front, a, b);
    } else {
      AddAllLookup(list, front, a);
      AddAllLookup(list, front, b);
      PlaceFinds(front, a);
      PlaceFinds(front, b);
      PlaceFinds(before, a);
      PlaceFinds(before, b);
    }
  }

  // All others keep their order.
  lemma {:induction false} PrioritizedKeepsOrder(entities: seq<Entity>, self: string, caller: Option<string>, a: string, b: string)
    requires self !in {a, b} && caller !in {Some(a), Some(b)}
    requires Place(entities, a) < Place(entities, b) < |entities|
    ensures Place(Prioritized(entities, self, caller), a) < Place(Prioritized(entities, self, caller), b)
  {
    hide AddAll, Place;
    FoundIsNot(entities, Some(self), [], a);
    FoundIsNot(entities, Some(self), [], b);
    var one := AddFound([], entities, Some(self));
    FoundIsNot(entities, caller, one, a);
    FoundIsNot(entities, caller, one, b);
    AddAllKeepsOrder(AddFound(one, entities, caller), entities, a, b);
  }

  lemma FoundIsNot(entities: seq<Entity>, reference: Option<string>, list: seq<Entity>, other: string)
    requires reference != Some(other) && Lookup(list, other).None?
    ensures Lookup(AddFound(list, entities, reference), other).None?
  {
    hide AddOnce, Lookup;
    if reference.Some? && Lookup(entities, reference.value).Some? {
      LookupFinds(entities, reference.value);
      AddOnceLookup(list, Lookup(entities, reference.value).value, other);
    }
  }
}
