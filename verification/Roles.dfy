/** ClavexRole passes: create once, never update, delete by name
    (Reconcile and reconcileRole in internal/controller/clavexrole_controller.go). */
module Roles {
  import opened Prelude
  import opened NameKeyed
  import opened AdminApi

  /** findRoleByName: lists, then searches; None is a failed listing. */
  method FindRole(api: NamedApi<string>, name: string, shuffle: Shuffler<string>, list: Outcome)
    returns (r: Option<Option<Entry<string>>>)
    requires Valid(api.store) && Permutes(shuffle)
    ensures r == if list == Done then Some(Find(api.store.entries, name)) else None
  {
    if list != Done {
      return None;
    }
    var answer := shuffle(api.store.entries);
    var found := FindByName(answer, name);
    SameMembers(answer, api.store.entries);
    FindIgnoresOrder(api.store.entries, answer, name);
    r := Some(found);
  }

  method ReconcileRole(api: NamedApi<string>, name: string, description: string,
                       shuffle: Shuffler<string>, list: Outcome, create: Outcome)
    returns (id: Option<nat>)
    requires Valid(api.store) && Permutes(shuffle)
    modifies api
    ensures var p := Pass<string>.Reconcile(name, description, None, list, create);
            api.store == After(old(api.store), p) && id == Reported(old(api.store), p)
    ensures var existing := Find(old(api.store).entries, name);
            if list != Done then id == None && api.store == old(api.store)
            else if existing.Some? then id == Some(existing.value.id) && api.store == old(api.store)
            else
              && id == (if create == Done then Some(old(api.store).next) else None)
              && api.store.entries == old(api.store).entries +
                 (if create == Failed then [] else [Entry(old(api.store).next, name, description)])
    ensures Valid(api.store)
  {
    ghost var p := Pass<string>.Reconcile(name, description, None, list, create);
    PassKeepsValid(api.store, p);
    var existing := FindRole(api, name, shuffle, list);
    if existing.None? {
      return None;
    }
    if existing.value.Some? {
      return Some(existing.value.value.id);
    }
    id := api.Create(name, description, create);
  }

  /** The remote half of the deletion branch; the finalizer is dropped only on success. */
  method FinalizeRole(api: NamedApi<string>, name: string, shuffle: Shuffler<string>, list: Outcome, delete: Outcome)
    returns (ok: bool)
    requires Valid(api.store) && Permutes(shuffle)
    modifies api
    ensures api.store == After(old(api.store), Finalize(name, list, delete))
    ensures ok ==> Find(api.store.entries, name).None?
    ensures ok <==> list == Done && (Find(old(api.store).entries, name).None? || delete == Done)
    ensures Valid(api.store)
  {
    ghost var p: Pass<string> := Finalize(name, list, delete);
    PassKeepsValid(api.store, p);
    var existing := FindRole(api, name, shuffle, list);
    if existing.None? {
      return false;
    }
    if existing.value.None? {
      return true;
    }
    DeletedIsGone(api.store, name);
    ok := api.Delete(existing.value.value.id, delete);
  }

  lemma DeletedIsGone<B(!new)>(s: Store<B>, name: string)
    requires Valid(s) && Find(s.entries, name).Some?
    ensures Find(Without(s.entries, Find(s.entries, name).value.id), name).None?
  {
    var e := Find(s.entries, name).value;
    WithoutDrops(s.entries, e.id);
    var rest := Without(s.entries, e.id);
    if Find(rest, name).Some? {
      var other := Find(rest, name).value;
      var i :| 0 <= i < |s.entries| && s.entries[i] == e;
      var j :| 0 <= j < |s.entries| && s.entries[j] == other;
      WithoutOmits(s.entries, e.id);
    }
  }

  lemma {:induction false} WithoutOmits<B>(entries: seq<Entry<B>>, id: nat)
    ensures forall e :: e in Without(entries, id) ==> e.id != id
  {
    if entries != [] {
      WithoutOmits(entries[1..], id);
    }
  }
}
