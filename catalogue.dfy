/**
 * Unique business keys (licence plate, supplier code, SKU) over a repository
 * keyed by id, and the rules by which create and update keep them unique.
 */
module Catalogue {
  import opened Common

  /** `findByX(k).isPresent()`: some stored record has key `k`. */
  predicate KeyTaken<T>(m: map<Id, T>, key: T -> string, k: string)
  {
    exists id | id in m :: key(m[id]) == k
  }

  /** No two stored records share a key (the column's unique constraint). */
  ghost predicate UniqueKeys<T>(m: map<Id, T>, key: T -> string)
  {
    forall a, b | a in m && b in m && a != b :: key(m[a]) != key(m[b])
  }

  /** With unique keys, a taken key belongs to exactly one id. */
  lemma TakenKeyOwner<T>(m: map<Id, T>, key: T -> string, id: Id)
    requires UniqueKeys(m, key) && id in m
    ensures KeyTaken(m, key, key(m[id]))
    ensures forall other | other in m && key(m[other]) == key(m[id]) :: other == id
  {
  }

  /** Creating a record under a fresh id and an untaken key keeps keys unique, and the key is now taken. */
  lemma InsertKeepsUnique<T>(m: map<Id, T>, key: T -> string, id: Id, x: T)
    requires UniqueKeys(m, key) && id !in m && !KeyTaken(m, key, key(x))
    ensures UniqueKeys(m[id := x], key)
    ensures KeyTaken(m[id := x], key, key(x))
  {
    assert key(m[id := x][id]) == key(x);
  }

  /**
   * Updating a record keeps keys unique when the key is unchanged or the new
   * key was not taken: the check create and update both make before saving.
   */
  lemma ReplaceKeepsUnique<T>(m: map<Id, T>, key: T -> string, id: Id, x: T)
    requires UniqueKeys(m, key) && id in m
    requires key(x) == key(m[id]) || !KeyTaken(m, key, key(x))
    ensures UniqueKeys(m[id := x], key)
  {
    var m' := m[id := x];
    forall a, b | a in m' && b in m' && a != b
      ensures key(m'[a]) != key(m'[b])
    {
      if a == id {
        assert b in m && m'[b] == m[b];
        if key(x) != key(m[id]) {
          assert !(key(m[b]) == key(x));
        }
      } else if b == id {
        assert a in m && m'[a] == m[a];
        if key(x) != key(m[id]) {
          assert !(key(m[a]) == key(x));
        }
      }
    }
  }
}
