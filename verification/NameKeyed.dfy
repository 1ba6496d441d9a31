/** Remote objects without a client-supplied ID: looked up by name, created when missing
    (findRoleByName, findGroupByName, findAuthPolicyByName and their reconcile and delete paths). */
module NameKeyed {
  import opened Prelude

  datatype Entry<+B> = Entry(id: nat, name: string, body: B)

  /** The objects of one kind in one org; the server assigns ever new IDs. */
  datatype Store<+B> = Store(entries: seq<Entry<B>>, next: nat)

  /** The first entry of that name. */
  function Find<B>(entries: seq<Entry<B>>, name: string): (r: Option<Entry<B>>)
    ensures r.Some? ==> r.value in entries && r.value.name == name
    ensures r.None? <==> forall e :: e in entries ==> e.name != name
  {
    if entries == [] then None
    else if entries[0].name == name then Some(entries[0])
    else Find(entries[1..], name)
  }

  method FindByName<B>(answer: seq<Entry<B>>, name: string) returns (r: Option<Entry<B>>)
    ensures r == Find(answer, name)
  {
    var i := 0;
    while i < |answer|
      invariant i <= |answer|
      invariant Find(answer, name) == Find(answer[i..], name)
    {
      if answer[i].name == name {
        return Some(answer[i]);
      }
      i := i + 1;
    }
    r := None;
  }

  predicate UniqueNames<B>(entries: seq<Entry<B>>) {
    forall i, j :: 0 <= i < j < |entries| ==> entries[i].name != entries[j].name
  }

  predicate UniqueIds<B>(entries: seq<Entry<B>>) {
    forall i, j :: 0 <= i < j < |entries| ==> entries[i].id != entries[j].id
  }

  ghost predicate Valid<B>(s: Store<B>) {
    && UniqueNames(s.entries) && UniqueIds(s.entries)
    && (forall e :: e in s.entries ==> e.id < s.next)
  }

  /** With unique names the listing order does not matter to a lookup. */
  lemma FindIgnoresOrder<B(!new)>(entries: seq<Entry<B>>, answer: seq<Entry<B>>, name: string)
    requires UniqueNames(entries) && (forall e :: e in answer <==> e in entries)
    ensures Find(answer, name) == Find(entries, name)
  {
    if Find(entries, name).Some? {
      var e := Find(entries, name).value;
      var e' := Find(answer, name);
      assert e in answer;
      assert e'.Some? && e'.value in entries;
      var i :| 0 <= i < |entries| && entries[i] == e;
      var j :| 0 <= j < |entries| && entries[j] == e'.value;
    }
  }

  function Without<B>(entries: seq<Entry<B>>, id: nat): seq<Entry<B>> {
    if entries == [] then []
    else if entries[0].id == id then Without(entries[1..], id)
    else [entries[0]] + Without(entries[1..], id)
  }

  function WithBody<B>(entries: seq<Entry<B>>, id: nat, body: B): seq<Entry<B>> {
    seq(|entries|, i requires 0 <= i < |entries| =>
      if entries[i].id == id then entries[i].(body := body) else entries[i])
  }

  /** One pass over one name. A reconcile pass creates the entry when the listing misses it, and may
      rewrite the body of one it finds; a deletion pass deletes what it finds. Every call may fail,
      and a write may take effect and still be reported as failed. */
  datatype Pass<B> =
    | Reconcile(name: string, initial: B, rewrite: Option<B>, list: Outcome, write: Outcome)
    | Finalize(name: string, list: Outcome, write: Outcome)

  function After<B>(s: Store<B>, p: Pass<B>): Store<B> {
    var e := Find(s.entries, p.name);
    if p.list != Done || !p.write.TookEffect() then s
    else
      match p
      case Reconcile(name, initial, rewrite, _, _) =>
        if e.None? then Store(s.entries + [Entry(s.next, name, initial)], s.next + 1)
        else if rewrite.Some? then s.(entries := WithBody(s.entries, e.value.id, rewrite.value))
        else s
      case Finalize(_, _, _) =>
        if e.None? then s else s.(entries := Without(s.entries, e.value.id))
  }

  /** The ID a successful reconcile pass reports. */
  function Reported<B>(s: Store<B>, p: Pass<B>): Option<nat> {
    var e := Find(s.entries, p.name);
    if p.Finalize? || p.list != Done then None
    else if e.None? then (if p.write == Done then Some(s.next) else None)
    else if p.rewrite.Some? && p.write != Done then None
    else Some(e.value.id)
  }

  function AfterAll<B>(s: Store<B>, ps: seq<Pass<B>>): Store<B> {
    if ps == [] then s else After(AfterAll(s, ps[..|ps| - 1]), ps[|ps| - 1])
  }

  lemma {:induction false} WithoutDrops<B>(entries: seq<Entry<B>>, id: nat)
    ensures forall e :: e in Without(entries, id) ==> e in entries
  {
    if entries != [] {
      WithoutDrops(entries[1..], id);
    }
  }

  lemma {:induction false} WithoutKeepsUnique<B>(entries: seq<Entry<B>>, id: nat)
    requires UniqueNames(entries) && UniqueIds(entries)
    ensures UniqueNames(Without(entries, id)) && UniqueIds(Without(entries, id))
  {
    if entries != [] {
      WithoutKeepsUnique(entries[1..], id);
      WithoutDrops(entries[1..], id);
      assert [entries[0]] + entries[1..] == entries;
      UniqueCons(entries[0], entries[1..], Without(entries[1..], id));
    }
  }

  lemma UniqueCons<B>(e: Entry<B>, all: seq<Entry<B>>, rest: seq<Entry<B>>)
    requires UniqueNames([e] + all) && UniqueIds([e] + all)
    requires UniqueNames(rest) && UniqueIds(rest) && (forall r :: r in rest ==> r in all)
    ensures UniqueNames([e] + rest) && UniqueIds([e] + rest)
  {
    forall j | 0 <= j < |rest| ensures e.name != rest[j].name && e.id != rest[j].id {
      assert rest[j] in all;
      var k :| 0 <= k < |all| && all[k] == rest[j];
      assert ([e] + all)[0] == e && ([e] + all)[k + 1] == all[k];
    }
  }

  lemma {:induction false} FindInAppended<B>(entries: seq<Entry<B>>, e: Entry<B>, name: string)
    ensures Find(entries + [e], name) ==
            if Find(entries, name).Some? then Find(entries, name) else if e.name == name then Some(e) else None
  {
    if entries != [] {
      assert (entries + [e])[1..] == entries[1..] + [e];
      FindInAppended(entries[1..], e, name);
    }
  }

  lemma {:induction false} FindInRewritten<B>(entries: seq<Entry<B>>, id: nat, body: B, name: string)
    ensures var e, e' := Find(entries, name), Find(WithBody(entries, id, body), name);
            e'.Some? == e.Some? &&
            (e.Some? ==> e'.value == if e.value.id == id then e.value.(body := body) else e.value)
  {
    if entries != [] {
      assert WithBody(entries, id, body)[1..] == WithBody(entries[1..], id, body);
      FindInRewritten(entries[1..], id, body, name);
    }
  }

  lemma {:induction false} FindInReduced<B>(entries: seq<Entry<B>>, id: nat, name: string)
    ensures Find(entries, name).Some? && Find(entries, name).value.id != id ==>
              Find(Without(entries, id), name) == Find(entries, name)
  {
    if entries != [] && entries[0].name != name {
      FindInReduced(entries[1..], id, name);
    }
  }

  lemma PassKeepsValid<B(!new)>(s: Store<B>, p: Pass<B>)
    requires Valid(s)
    ensures Valid(After(s, p))
  {
    if p.Finalize? && Find(s.entries, p.name).Some? {
      var id := Find(s.entries, p.name).value.id;
      WithoutDrops(s.entries, id);
      WithoutKeepsUnique(s.entries, id);
    }
  }

  /** What a pass does to the entry of any name: only a deletion pass of that very name removes it,
      and nothing ever changes its ID. */
  lemma PassKeepsIds<B(!new)>(s: Store<B>, p: Pass<B>, name: string)
    requires Valid(s)
    ensures var e, e' := Find(s.entries, name), Find(After(s, p).entries, name);
            && (e.Some? && !(p.Finalize? && p.name == name) ==> e'.Some? && e'.value.id == e.value.id)
            && (p.name == name && Reported(s, p).Some? ==> e'.Some? && Reported(s, p) == Some(e'.value.id))
  {
    var found := Find(s.entries, p.name);
    if p.Reconcile? && found.None? {
      FindInAppended(s.entries, Entry(s.next, p.name, p.initial), name);
    } else if p.Reconcile? && p.rewrite.Some? {
      FindInRewritten(s.entries, found.value.id, p.rewrite.value, name);
    } else if p.Finalize? && p.name != name && found.Some? && Find(s.entries, name).Some? {
      DifferentNamesDifferentIds(s, Find(s.entries, name).value, found.value);
      FindInReduced(s.entries, found.value.id, name);
    }
  }

  lemma DifferentNamesDifferentIds<B>(s: Store<B>, a: Entry<B>, b: Entry<B>)
    requires Valid(s) && a in s.entries && b in s.entries && a.name != b.name
    ensures a.id != b.id
  {
  }

  /** Retry-safety: any number of passes over any names, with any faults, including a Create that took
      effect but was reported as failed, keeps at most one object per name. */
  lemma {:induction false} NeverDuplicates<B(!new)>(s: Store<B>, ps: seq<Pass<B>>)
    requires Valid(s)
    ensures Valid(AfterAll(s, ps))
  {
    if ps != [] {
      NeverDuplicates(s, ps[..|ps| - 1]);
      PassKeepsValid(AfterAll(s, ps[..|ps| - 1]), ps[|ps| - 1]);
    }
  }

  /** Once a pass has reported an ID for a name, the name keeps it, and every later success reports
      the same one, until a deletion pass of that name. */
  lemma {:induction false} SuccessesAgree<B(!new)>(s: Store<B>, ps: seq<Pass<B>>, i: nat, j: nat)
    requires Valid(s) && i < j < |ps| && ps[i].name == ps[j].name
    requires Reported(AfterAll(s, ps[..i]), ps[i]).Some? && Reported(AfterAll(s, ps[..j]), ps[j]).Some?
    requires forall k :: i < k < j ==> !(ps[k].Finalize? && ps[k].name == ps[i].name)
    ensures Reported(AfterAll(s, ps[..j]), ps[j]) == Reported(AfterAll(s, ps[..i]), ps[i])
  {
    ReportedIdStays(s, ps, i, j);
    NeverDuplicates(s, ps[..j]);
    PassKeepsIds(AfterAll(s, ps[..j]), ps[j], ps[j].name);
  }

  lemma AfterOneMore<B>(s: Store<B>, ps: seq<Pass<B>>, j: nat)
    requires 0 < j <= |ps|
    ensures AfterAll(s, ps[..j]) == After(AfterAll(s, ps[..j - 1]), ps[j - 1])
  {
    assert ps[..j][..j - 1] == ps[..j - 1];
  }

  lemma {:induction false} ReportedIdStays<B(!new)>(s: Store<B>, ps: seq<Pass<B>>, i: nat, j: nat)
    requires Valid(s) && i < j <= |ps| && Reported(AfterAll(s, ps[..i]), ps[i]).Some?
    requires forall k :: i < k < j ==> !(ps[k].Finalize? && ps[k].name == ps[i].name)
    ensures var e := Find(AfterAll(s, ps[..j]).entries, ps[i].name);
            e.Some? && Reported(AfterAll(s, ps[..i]), ps[i]) == Some(e.value.id)
    decreases j
  {
    AfterOneMore(s, ps, j);
    NeverDuplicates(s, ps[..j - 1]);
    PassKeepsIds(AfterAll(s, ps[..j - 1]), ps[j - 1], ps[i].name);
    if i < j - 1 {
      ReportedIdStays(s, ps, i, j - 1);
    }
  }
}
