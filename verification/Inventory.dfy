/** What the provider lists: entries with an id and a name, oldest first. */
module Inventory {
  import opened Common

  datatype Entry<+T> = Entry(id: string, name: string, body: T)

  /** Where the first entry with this id stands. */
  function ById<T>(entries: seq<Entry<T>>, id: string): (at: Option<nat>)
    ensures at.Some? ==> at.value < |entries| && entries[at.value].id == id
    ensures at.None? ==> forall e | e in entries :: e.id != id
  {
    if entries == [] then None
    else
      var front := ById(entries[..|entries| - 1], id);
      if front.Some? then front
      else if entries[|entries| - 1].id == id then Some(|entries| - 1)
      else assert entries == entries[..|entries| - 1] + [entries[|entries| - 1]]; None
  }

  /** Where the first entry with this name stands. */
  function ByName<T>(entries: seq<Entry<T>>, name: string): (at: Option<nat>)
    ensures at.Some? ==> at.value < |entries| && entries[at.value].name == name
    ensures at.None? ==> forall e | e in entries :: e.name != name
  {
    if entries == [] then None
    else
      var front := ByName(entries[..|entries| - 1], name);
      if front.Some? then front
      else if entries[|entries| - 1].name == name then Some(|entries| - 1)
      else assert entries == entries[..|entries| - 1] + [entries[|entries| - 1]]; None
  }

  function Without<T>(entries: seq<Entry<T>>, k: nat): seq<Entry<T>>
    requires k < |entries|
  {
    entries[..k] + entries[k + 1..]
  }

  ghost predicate UniqueIds<T>(entries: seq<Entry<T>>) {
    forall j, k | 0 <= j < k < |entries| :: entries[j].id != entries[k].id
  }

  ghost predicate UniqueNames<T>(entries: seq<Entry<T>>) {
    forall j, k | 0 <= j < k < |entries| :: entries[j].name != entries[k].name
  }

  ghost predicate HasId<T(!new)>(entries: seq<Entry<T>>, id: string) {
    exists e :: e in entries && e.id == id
  }

  /** Two inventories that differ, if at all, in what they hold under one id. */
  ghost predicate SameBut<T(!new)>(before: seq<Entry<T>>, after: seq<Entry<T>>, id: string) {
    forall e: Entry<T> | e.id != id :: e in before <==> e in after
  }

  lemma IdFindsIt<T>(entries: seq<Entry<T>>, e: Entry<T>)
    requires UniqueIds(entries) && e in entries
    ensures ById(entries, e.id).Some? && entries[ById(entries, e.id).value] == e
  {
    var at := ById(entries, e.id);
    assert at.Some?;
    var k: nat :| k < |entries| && entries[k] == e;
    assert k == at.value;
  }

  lemma NameFindsIt<T>(entries: seq<Entry<T>>, e: Entry<T>)
    requires UniqueNames(entries) && e in entries
    ensures ByName(entries, e.name).Some? && entries[ByName(entries, e.name).value] == e
  {
    var at := ByName(entries, e.name);
    assert at.Some?;
    var k: nat :| k < |entries| && entries[k] == e;
    assert k == at.value;
  }

  /** Adding an entry keeps names apart exactly when its name is new. */
  lemma AddingKeepsNames<T>(entries: seq<Entry<T>>, e: Entry<T>)
    requires UniqueNames(entries)
    ensures UniqueNames(entries + [e]) <==> ByName(entries, e.name).None?
  {
    var longer, at := entries + [e], ByName(entries, e.name);
    if at.Some? {
      assert longer[at.value].name == longer[|entries|].name;
    }
  }

  lemma AddingKeepsIds<T(!new)>(entries: seq<Entry<T>>, e: Entry<T>)
    requires UniqueIds(entries) && ById(entries, e.id).None?
    ensures UniqueIds(entries + [e]) && SameBut(entries, entries + [e], e.id)
  {
  }

  lemma WithoutAt<T>(entries: seq<Entry<T>>, k: nat, j: nat)
    requires k < |entries| && j < |entries| - 1
    ensures Without(entries, k)[j] == entries[if j < k then j else j + 1]
  {
  }

  lemma RemovingKeepsUnique<T>(entries: seq<Entry<T>>, k: nat)
    requires k < |entries|
    ensures UniqueIds(entries) ==> UniqueIds(Without(entries, k))
    ensures UniqueNames(entries) ==> UniqueNames(Without(entries, k))
  {
    var rest := Without(entries, k);
    forall j: nat | j < |rest|
      ensures rest[j] == entries[if j < k then j else j + 1]
    {
      WithoutAt(entries, k, j);
    }
  }

  lemma RemovingMembers<T>(entries: seq<Entry<T>>, k: nat, e: Entry<T>)
    requires k < |entries| && UniqueIds(entries)
    ensures e in Without(entries, k) <==> e in entries && e.id != entries[k].id
  {
    var rest := Without(entries, k);
    if e in rest {
      var j: nat :| j < |rest| && rest[j] == e;
      WithoutAt(entries, k, j);
    }
    if e in entries && e.id != entries[k].id {
      var j: nat :| j < |entries| && entries[j] == e;
      WithoutAt(entries, k, if j < k then j else j - 1);
    }
  }

  lemma RemovingKeeps<T(!new)>(entries: seq<Entry<T>>, k: nat)
    requires k < |entries| && UniqueIds(entries)
    ensures UniqueIds(Without(entries, k))
    ensures UniqueNames(entries) ==> UniqueNames(Without(entries, k))
    ensures SameBut(entries, Without(entries, k), entries[k].id)
    ensures !HasId(Without(entries, k), entries[k].id)
  {
    RemovingKeepsUnique(entries, k);
    forall e: Entry<T>
      ensures e in Without(entries, k) <==> e in entries && e.id != entries[k].id
    {
      RemovingMembers(entries, k, e);
    }
  }

  /** Changing what is held under an entry leaves ids and names alone. */
  lemma ChangingKeeps<T(!new)>(entries: seq<Entry<T>>, k: nat, body: T)
    requires k < |entries| && UniqueIds(entries)
    ensures var changed := entries[k := entries[k].(body := body)];
            UniqueIds(changed) && SameBut(entries, changed, entries[k].id)
            && (UniqueNames(entries) ==> UniqueNames(changed))
  {
    var changed := entries[k := entries[k].(body := body)];
    forall e: Entry<T> | e.id != entries[k].id
      ensures e in entries <==> e in changed
    {
      if e in entries {
        var j: nat :| j < |entries| && entries[j] == e;
        assert changed[j] == e;
      }
    }
  }
}
