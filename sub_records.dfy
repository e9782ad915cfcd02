/**
  The experience and education lists of a profile: the entries the `PUT`
  routes prepend, the removal the `DELETE` routes perform as written, and,
  for contrast, a removal by identifier.
*/
module SubRecords {
  import opened Wrappers
  import opened Documents
  import opened JsArrays

  /** `{ title, company, location, from, to, current, description }`, with `_id` given by the store. */
  function NewExperience(id: EntryId, b: ExperienceBody): Experience {
    Experience(id, b.title, b.company, b.location, b.from, b.to, b.current, b.description)
  }

  /** `{ school, degree, fieldofstudy, from, to, current, description }`, with `_id` given by the store. */
  function NewEducation(id: EntryId, b: EducationBody): Education {
    Education(id, b.school, b.degree, b.fieldofstudy, b.from, b.to, b.current, b.description)
  }

  /**
    The removal the `DELETE` routes perform: `list.splice(indexes, 1)`, where
    `indexes` is what `map` returns over a list of `mappedLength` entries
    whose callback returns nothing. The requested identifier never reaches
    `splice`, and the coerced start index is 0, so the first entry goes,
    whatever was asked for.
  */
  function RemoveAsWritten<T>(list: seq<T>, mappedLength: nat): (r: seq<T>)
    ensures r == if list == [] then [] else list[1..]
  {
    SpliceFirst(list);
    Splice(list, UndefinedArrayAsIndex(mappedLength), 1)
  }

  /** Removing as written right after a `PUT` prepended `entry` takes that entry off again, whatever was asked for. */
  lemma RemoveUndoesPrepend<T>(entry: T, list: seq<T>, mappedLength: nat)
    ensures RemoveAsWritten([entry] + list, mappedLength) == list
  {
  }

  /** No two entries of `list` share an identifier. */
  ghost predicate UniqueIds<T>(list: seq<T>, idOf: T -> EntryId) {
    forall i, j :: 0 <= i < j < |list| ==> idOf(list[i]) != idOf(list[j])
  }

  /** The position of the first entry whose identifier is `id`, if there is one. */
  function FindIndexById<T>(list: seq<T>, idOf: T -> EntryId, id: EntryId): (r: Option<nat>)
    ensures r.Some? ==> r.value < |list| && idOf(list[r.value]) == id
    ensures r.Some? ==> forall j :: 0 <= j < r.value ==> idOf(list[j]) != id
    ensures r.None? <==> forall j :: 0 <= j < |list| ==> idOf(list[j]) != id
  {
    if list == [] then None
    else if idOf(list[0]) == id then Some(0)
    else
      match FindIndexById(list[1..], idOf, id)
      case None => None
      case Some(i) => Some(i + 1)
  }

  /** Removal by identifier: the first entry with identifier `id` goes, and nothing happens when there is none. */
  function RemoveById<T>(list: seq<T>, idOf: T -> EntryId, id: EntryId): (r: seq<T>)
    ensures (forall j :: 0 <= j < |list| ==> idOf(list[j]) != id) ==> r == list
    ensures (exists j :: 0 <= j < |list| && idOf(list[j]) == id) ==>
      exists i :: 0 <= i < |list| && idOf(list[i]) == id && (forall j :: 0 <= j < i ==> idOf(list[j]) != id)
        && r == list[..i] + list[i + 1..]
    ensures UniqueIds(list, idOf) ==> forall j :: 0 <= j < |r| ==> idOf(r[j]) != id
  {
    match FindIndexById(list, idOf, id)
    case None => list
    case Some(i) =>
      var r := list[..i] + list[i + 1..];
      assert forall j :: 0 <= j < |r| ==> r[j] == if j < i then list[j] else list[j + 1];
      assert idOf(list[i]) == id && (forall j :: 0 <= j < i ==> idOf(list[j]) != id) && r == list[..i] + list[i + 1..];
      r
  }

  /**
    The removal as written agrees with removal by identifier exactly when the
    list is empty or the entry asked for happens to be the first one.
  */
  lemma AsWrittenAgreesOnlyAtHead<T>(list: seq<T>, mappedLength: nat, idOf: T -> EntryId, id: EntryId)
    ensures RemoveAsWritten(list, mappedLength) == RemoveById(list, idOf, id)
        <==> list == [] || idOf(list[0]) == id
  {
    if list != [] && idOf(list[0]) != id {
      AsWrittenDiffers(list, mappedLength, idOf, id);
    }
  }

  /** When the first entry is not the one asked for, the two removals leave different lists. */
  lemma AsWrittenDiffers<T>(list: seq<T>, mappedLength: nat, idOf: T -> EntryId, id: EntryId)
    requires list != [] && idOf(list[0]) != id
    ensures RemoveAsWritten(list, mappedLength) != RemoveById(list, idOf, id)
  {
    var asWritten := RemoveAsWritten(list, mappedLength);
    match FindIndexById(list, idOf, id)
    case None =>
      assert RemoveById(list, idOf, id) == list;
    case Some(i) =>
      assert RemoveById(list, idOf, id) == list[..i] + list[i + 1..];
      DropOtherDiffers(list, i, idOf, id);
  }

  /**
    Dropping the first entry and dropping the entry at `i` leave different
    lists when the entry before `i` is not `i`'s identifier.
  */
  lemma DropOtherDiffers<T>(list: seq<T>, i: nat, idOf: T -> EntryId, id: EntryId)
    requires 0 < i < |list| && idOf(list[i]) == id && idOf(list[i - 1]) != id
    ensures list[1..] != list[..i] + list[i + 1..]
  {
    var byId := list[..i] + list[i + 1..];
    assert list[1..][i - 1] == list[i] && byId[i - 1] == list[i - 1];
  }
}
