/** One kind of remote object as the Admin API serves it: listings in any order, fallible writes. */
module AdminApi {
  import opened Prelude
  import opened NameKeyed

  /** The order in which a List call answers. */
  type Shuffler<!B(!new)> = seq<Entry<B>> -> seq<Entry<B>>

  ghost predicate Permutes<B(!new)>(shuffle: Shuffler<B>) {
    forall s :: multiset(shuffle(s)) == multiset(s)
  }

  lemma SameMembers<T>(s: seq<T>, t: seq<T>)
    requires multiset(s) == multiset(t)
    ensures forall e :: e in s <==> e in t
  {
    assert forall e :: e in s <==> e in multiset(s);
    assert forall e :: e in t <==> e in multiset(t);
  }

  /** The objects of one kind as the Admin API serves them. */
  class NamedApi<B(!new)> {
    var store: Store<B>

    constructor ()
      ensures store == Store([], 0)
    {
      store := Store([], 0);
    }

    method Create(name: string, body: B, out: Outcome) returns (id: Option<nat>)
      modifies this
      ensures id == if out == Done then Some(old(store.next)) else None
      ensures store == if out.TookEffect()
                       then Store(old(store.entries) + [Entry(old(store.next), name, body)], old(store.next) + 1)
                       else old(store)
    {
      id := if out == Done then Some(store.next) else None;
      if out.TookEffect() {
        store := Store(store.entries + [Entry(store.next, name, body)], store.next + 1);
      }
    }

    method Delete(id: nat, out: Outcome) returns (ok: bool)
      modifies this
      ensures ok == (out == Done)
      ensures store == if out.TookEffect() then old(store).(entries := Without(old(store.entries), id)) else old(store)
    {
      ok := out == Done;
      if out.TookEffect() {
        store := store.(entries := Without(store.entries, id));
      }
    }
  }
}
