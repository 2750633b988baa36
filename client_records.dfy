/**
 * The JSON records the front-end keeps in its Redux store, reduced to what
 * the reducers look at: the `id`, and everything else as an opaque body.
 */
module ClientRecords {
  import opened Common
  import opened Lists

  datatype Entity = Entity(id: int, body: string)

  /** A Spring `Page` as the API returns it. */
  datatype Page = Page(content: seq<Entity>, totalPages: int, totalElements: int, number: int)

  /** `(x) => x.id === id` */
  function HasId(id: int): Entity -> bool
  {
    (e: Entity) => e.id == id
  }

  /** `(x) => x.id !== id` */
  function LacksId(id: int): Entity -> bool
  {
    (e: Entity) => e.id != id
  }

  /**
   * Writing `item` at `findIndex` of its id replaces the first record with
   * that id and nothing else, keeps the length, and changes nothing when no
   * record has the id.
   */
  lemma ReplaceByIdEffect(s: seq<Entity>, item: Entity)
    ensures |ReplaceFirst(s, HasId(item.id), item)| == |s|
    ensures (forall i :: 0 <= i < |s| ==> s[i].id != item.id) ==> ReplaceFirst(s, HasId(item.id), item) == s
    ensures forall i :: 0 <= i < |s| ==>
      ReplaceFirst(s, HasId(item.id), item)[i]
        == if i == FirstIndex(s, HasId(item.id)) then item else s[i]
    ensures forall i :: 0 <= i < |s| && s[i].id != item.id ==> ReplaceFirst(s, HasId(item.id), item)[i] == s[i]
  {
  }

  /** Removing by id leaves no record with that id and keeps every other record, in order. */
  lemma RemoveByIdEffect(s: seq<Entity>, id: int)
    ensures forall i :: 0 <= i < |Filter(s, LacksId(id))| ==> Filter(s, LacksId(id))[i].id != id
    ensures forall i :: 0 <= i < |s| && s[i].id != id ==> s[i] in Filter(s, LacksId(id))
    ensures IsSubsequence(Filter(s, LacksId(id)), s)
    ensures (forall i :: 0 <= i < |s| ==> s[i].id != id) ==> Filter(s, LacksId(id)) == s
  {
    if forall i :: 0 <= i < |s| ==> s[i].id != id {
      FilterAll(s, LacksId(id));
    }
  }
}
