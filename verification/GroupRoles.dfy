/** Role membership of a group, converged to the role names of its spec
    (reconcileGroup and syncGroupRoles in internal/controller/clavexgroup_controller.go). */
module GroupRoles {
  import opened Prelude
  import opened NameKeyed
  import opened AdminApi

  datatype Write = Assign(id: nat) | Remove(id: nat)

  function Applied(members: set<nat>, w: Write): set<nat> {
    match w
    case Assign(id) => members + {id}
    case Remove(id) => members - {id}
  }

  function Apply(members: set<nat>, ws: seq<Write>): set<nat> {
    if ws == [] then members else Applied(Apply(members, ws[..|ws| - 1]), ws[|ws| - 1])
  }

  function Difference(a: set<nat>, b: set<nat>): set<nat> {
    (a - b) + (b - a)
  }

  /** The writes of a possibly interrupted convergence from `current` to `want`, in some map order:
      no write is wasted or repeated, and nothing is removed before every missing role is assigned. */
  ghost predicate IsPlan(current: set<nat>, want: set<nat>, ws: seq<Write>) {
    && (forall w :: w in ws ==> w.id in if w.Assign? then want - current else current - want)
    && (forall i, j :: 0 <= i < j < |ws| ==> ws[i] != ws[j])
    && (forall i :: 0 <= i < |ws| && ws[i].Remove? ==> forall id :: id in want - current ==> Assign(id) in ws[..i])
  }

  lemma NoWritesIsAPlan()
    ensures forall current, want :: IsPlan(current, want, [])
  {
  }

  lemma PlanPrefix(current: set<nat>, want: set<nat>, ws: seq<Write>, n: nat)
    requires IsPlan(current, want, ws) && n <= |ws|
    ensures IsPlan(current, want, ws[..n])
  {
    forall i | 0 <= i < n ensures ws[..n][..i] == ws[..i] {
    }
  }

  lemma {:induction false} PlanReaches(current: set<nat>, want: set<nat>, ws: seq<Write>)
    requires IsPlan(current, want, ws)
    ensures forall id :: id in Apply(current, ws) <==>
                         (id in current && Remove(id) !in ws) || Assign(id) in ws
  {
    if ws != [] {
      PlanPrefix(current, want, ws, |ws| - 1);
      PlanReaches(current, want, ws[..|ws| - 1]);
      assert ws == ws[..|ws| - 1] + [ws[|ws| - 1]];
    }
  }

  lemma OneWriteIsProgress(current: set<nat>, want: set<nat>, before: set<nat>, w: Write)
    requires current * want <= before <= current + want
    requires w.id in if w.Assign? then want - before else before - want
    ensures var after := Applied(before, w);
            && current * want <= after <= current + want
            && |Difference(after, want)| + 1 == |Difference(before, want)|
  {
    assert Difference(Applied(before, w), want) == Difference(before, want) - {w.id};
  }

  /** At every point of a pass, completed or not: membership stays inside the envelope of the two
      sets, and each effective write has brought it exactly one step closer to the wanted set. */
  lemma {:induction false} EveryWriteIsProgress(current: set<nat>, want: set<nat>, ws: seq<Write>)
    requires IsPlan(current, want, ws)
    ensures var m := Apply(current, ws);
            && current * want <= m <= current + want
            && |Difference(m, want)| + |ws| == |Difference(current, want)|
            && (m == want <==> |ws| == |Difference(current, want)|)
  {
    if ws != [] {
      var n := |ws| - 1;
      PlanPrefix(current, want, ws, n);
      EveryWriteIsProgress(current, want, ws[..n]);
      PlanReaches(current, want, ws[..n]);
      assert ws[n] !in ws[..n] && ws[n] in ws;
      OneWriteIsProgress(current, want, Apply(current, ws[..n]), ws[n]);
    }
    NoDifference(Apply(current, ws), want);
  }

  lemma NoDifference(a: set<nat>, b: set<nat>)
    ensures a == b <==> |Difference(a, b)| == 0
  {
    assert a == b <==> Difference(a, b) == {};
  }

  // ---- retries ----

  /** Successive passes with the same target, each picking up where the last one stopped. */
  ghost predicate IsChain(current: set<nat>, want: set<nat>, plans: seq<seq<Write>>)
    decreases plans
  {
    plans == [] ||
    (IsPlan(current, want, plans[0]) && IsChain(Apply(current, plans[0]), want, plans[1..]))
  }

  function Total(plans: seq<seq<Write>>): nat {
    if plans == [] then 0 else |plans[0]| + Total(plans[1..])
  }

  function ApplyPlans(members: set<nat>, plans: seq<seq<Write>>): set<nat>
    decreases plans
  {
    if plans == [] then members else ApplyPlans(Apply(members, plans[0]), plans[1..])
  }

  /** However often passes fail and wherever they stop, no write is ever wasted: the writes so far and
      the distance left add up to the first distance, and the envelope of the first pass holds. */
  lemma {:induction false} RetriesConverge(current: set<nat>, want: set<nat>, plans: seq<seq<Write>>)
    requires IsChain(current, want, plans)
    ensures var m := ApplyPlans(current, plans);
            && current * want <= m <= current + want
            && Total(plans) + |Difference(m, want)| == |Difference(current, want)|
            && (m == want <==> Total(plans) == |Difference(current, want)|)
    decreases plans
  {
    if plans != [] {
      EveryWriteIsProgress(current, want, plans[0]);
      RetriesConverge(Apply(current, plans[0]), want, plans[1..]);
    }
    NoDifference(ApplyPlans(current, plans), want);
  }

  // ---- names to IDs ----

  function IdsNamed(entries: seq<Entry<string>>, names: seq<string>): set<nat> {
    set e | e in entries && e.name in names :: e.id
  }

  predicate AllNamed(entries: seq<Entry<string>>, names: seq<string>) {
    forall n :: n in names ==> Find(entries, n).Some?
  }

  function IdsOf(entries: seq<Entry<string>>): set<nat> {
    set e | e in entries :: e.id
  }

  /** What ClavexRole passes do to the roles: they create and delete, and never rewrite. */
  predicate RolePasses(ps: seq<Pass<string>>) {
    forall p :: p in ps ==> p.Reconcile? ==> p.rewrite.None?
  }

  /** IDs are never used again: what carries an old ID later is the old entry. */
  ghost predicate Later(s: Store<string>, s': Store<string>) {
    s.next <= s'.next && forall e :: e in s'.entries && e.id < s.next ==> e in s.entries
  }

  lemma LaterIsAPreorder(a: Store<string>, b: Store<string>, c: Store<string>)
    ensures Later(a, a) && (Later(a, b) && Later(b, c) ==> Later(a, c))
  {
  }

  lemma {:induction false} RolePassesAreLater(s: Store<string>, ps: seq<Pass<string>>)
    requires Valid(s) && RolePasses(ps)
    ensures Valid(AfterAll(s, ps)) && Later(s, AfterAll(s, ps))
  {
    NeverDuplicates(s, ps);
    if ps != [] {
      var n := |ps| - 1;
      RolePassesAreLater(s, ps[..n]);
      RolePassIsLater(AfterAll(s, ps[..n]), ps[n]);
    }
  }

  lemma RolePassIsLater(s: Store<string>, p: Pass<string>)
    requires p.Reconcile? ==> p.rewrite.None?
    ensures Later(s, After(s, p))
  {
    if p.Finalize? && Find(s.entries, p.name).Some? {
      WithoutDrops(s.entries, Find(s.entries, p.name).value.id);
    }
  }

  /** IDs that were handed out, whether or not their roles still exist. */
  predicate KnownIds(ids: set<nat>, s: Store<string>) {
    forall id :: id in ids ==> id < s.next
  }

  predicate Survives(s: Store<string>, s': Store<string>, name: string) {
    Find(s'.entries, name) == Find(s.entries, name)
  }

  /** While role passes go on, the roles that resolved names stand for remain those the names stand
      for if and only if none of them was deleted meanwhile; roles created later change nothing. */
  lemma TargetStandsExactly(s: Store<string>, s': Store<string>, names: seq<string>)
    requires Valid(s) && Valid(s') && Later(s, s') && AllNamed(s.entries, names)
    ensures IdsNamed(s'.entries, names) == IdsNamed(s.entries, names) <==> forall n :: n in names ==> Survives(s, s', n)
  {
    if IdsNamed(s'.entries, names) == IdsNamed(s.entries, names) {
      forall n | n in names ensures Survives(s, s', n) {
        var e := Find(s.entries, n).value;
        assert e.id in IdsNamed(s'.entries, names);
        var e' :| e' in s'.entries && e'.name in names && e'.id == e.id;
        assert e' in s.entries && e' == e;
        FindIsExact(s', e');
      }
    }
    if forall n :: n in names ==> Survives(s, s', n) {
      forall e | e in s.entries && e.name in names ensures e in s'.entries {
        FindIsExact(s, e);
        assert Survives(s, s', e.name);
      }
      forall e | e in s'.entries && e.name in names ensures e in s.entries {
        FindIsExact(s', e);
        assert Survives(s, s', e.name);
      }
    }
  }

  lemma FindIsExact(s: Store<string>, e: Entry<string>)
    requires Valid(s) && e in s.entries
    ensures Find(s.entries, e.name) == Some(e)
  {
    var i :| 0 <= i < |s.entries| && s.entries[i] == e;
    var j :| 0 <= j < |s.entries| && s.entries[j] == Find(s.entries, e.name).value;
  }

  // ---- the pass ----

  /** What a pass meets, call by call: the role passes, creating or deleting, that run first, the fate of
      the call, and the order in which listings answer. */
  datatype Weather = Weather(
    others: nat -> seq<Pass<string>>, outcome: nat -> Outcome,
    roleOrder: Shuffler<string>, groupOrder: Shuffler<()>)

  ghost predicate Ordinary(s: Weather) {
    (forall n :: RolePasses(s.others(n))) && Permutes(s.roleOrder) && Permutes(s.groupOrder)
  }

  ghost predicate FaultFree(s: Weather) {
    forall n :: s.outcome(n) == Done
  }

  /** What a listing of a group's roles shows of the stored assignments: a server may drop those of a
      deleted role, or keep them. */
  function Shown(cascade: bool, stored: set<nat>, roles: Store<string>): set<nat> {
    if cascade then stored * IdsOf(roles.entries) else stored
  }

  /** One org as groups see it. `writes` lists the membership writes that took effect. */
  class OrgApi {
    const cascade: bool
    var roles: Store<string>
    var groups: Store<()>
    var members: map<nat, set<nat>>
    var writes: seq<Write>

    ghost predicate Good()
      reads this
    {
      && Valid(roles) && Valid(groups)
      && (forall g :: g in members ==> g < groups.next)
      && (forall g :: g in members ==> KnownIds(members[g], roles))
    }

    constructor (cascade: bool)
      ensures Good() && roles == Store([], 0) && groups == Store([], 0) && members == map[] && writes == []
      ensures this.cascade == cascade
    {
      this.cascade := cascade;
      roles, groups, members, writes := Store([], 0), Store([], 0), map[], [];
    }

    function Stored(gid: nat): set<nat>
      reads this
    {
      if gid in members then members[gid] else {}
    }

    function MembersOf(gid: nat): set<nat>
      reads this
    {
      Shown(cascade, Stored(gid), roles)
    }

    method RunRolePasses(ps: seq<Pass<string>>)
      requires Good() && RolePasses(ps)
      modifies this`roles
      ensures Good() && roles == AfterAll(old(roles), ps) && Later(old(roles), roles)
    {
      RolePassesAreLater(roles, ps);
      roles := AfterAll(roles, ps);
    }

    /** One membership write, after whatever role passes run before it; the role may be gone by then. */
    method Perform(gid: nat, w: Write, others: seq<Pass<string>>, out: Outcome) returns (ok: bool)
      requires Good() && RolePasses(others) && gid < groups.next && w.id < roles.next
      modifies this`roles, this`members, this`writes
      ensures Good() && Later(old(roles), roles)
      ensures ok == (out == Done)
      ensures writes == if out.TookEffect() then old(writes) + [w] else old(writes)
      ensures Stored(gid) == if out.TookEffect() then Applied(old(Stored(gid)), w) else old(Stored(gid))
      ensures forall g :: g != gid ==> Stored(g) == old(Stored(g))
    {
      RunRolePasses(others);
      ok := out == Done;
      if out.TookEffect() {
        writes := writes + [w];
        members := members[gid := Applied(Stored(gid), w)];
      }
    }
  }

  /** The last entry of that name: the one that stays in an index filled front to back. */
  function FindLast(entries: seq<Entry<string>>, name: string): Option<Entry<string>> {
    if entries == [] then None
    else if entries[|entries| - 1].name == name then Some(entries[|entries| - 1])
    else FindLast(entries[..|entries| - 1], name)
  }

  /** With unique names the first and the last are one, in whatever order each listing comes. */
  lemma {:induction false} FirstIsLast(entries: seq<Entry<string>>, answer: seq<Entry<string>>, name: string)
    requires UniqueNames(entries) && (forall e :: e in answer ==> e in entries)
    ensures var first, last := Find(entries, name), FindLast(answer, name);
            && (last.Some? ==> first == last)
            && (last.None? <==> forall e :: e in answer ==> e.name != name)
  {
    if answer != [] {
      var e := answer[|answer| - 1];
      FirstIsLast(entries, answer[..|answer| - 1], name);
      assert answer == answer[..|answer| - 1] + [e];
      if e.name == name {
        assert e in entries;
        var i :| 0 <= i < |entries| && entries[i] == e;
        var j :| 0 <= j < |entries| && entries[j] == Find(entries, name).value;
      }
    }
  }

  /** Among these entries, only one place carries the name. */
  predicate Once(entries: seq<Entry<string>>, name: string) {
    forall i, j :: 0 <= i < j < |entries| ==> entries[i].name != name || entries[j].name != name
  }

  lemma {:induction false} FirstPlace(entries: seq<Entry<string>>, name: string) returns (first: nat)
    requires Find(entries, name).Some?
    ensures first < |entries| && entries[first] == Find(entries, name).value
    ensures forall i :: 0 <= i < first ==> entries[i].name != name
  {
    first := 0;
    if entries[0].name != name {
      var rest := FirstPlace(entries[1..], name);
      first := rest + 1;
    }
  }

  lemma {:induction false} LastPlace(entries: seq<Entry<string>>, name: string) returns (last: nat)
    requires exists e :: e in entries && e.name == name
    ensures FindLast(entries, name).Some?
    ensures last < |entries| && entries[last] == FindLast(entries, name).value && entries[last].name == name
    ensures forall i :: last < i < |entries| ==> entries[i].name != name
  {
    var n := |entries| - 1;
    last := n;
    if entries[n].name != name {
      assert entries == entries[..n] + [entries[n]];
      last := LastPlace(entries[..n], name);
    }
  }

  /** A ClavexRole reports the first role of its name and a ClavexGroup assigns the last one. Looking at
      one listing, they mean the same role if and only if the name occurs once. */
  lemma FirstIsLastExactly(entries: seq<Entry<string>>, name: string)
    requires UniqueIds(entries) && Find(entries, name).Some?
    ensures FindLast(entries, name).Some?
    ensures Find(entries, name).value.id == FindLast(entries, name).value.id <==> Once(entries, name)
  {
    var first := FirstPlace(entries, name);
    var last := LastPlace(entries, name);
    if Find(entries, name).value.id == FindLast(entries, name).value.id {
      assert first == last;
    }
  }

  ghost predicate SameRole(a: seq<Entry<string>>, b: seq<Entry<string>>, name: string) {
    Find(a, name).Some? && FindLast(b, name).Some? && Find(a, name).value.id == FindLast(b, name).value.id
  }

  /** Each pass gets its own listing, in an order of its own: both mean the same role in all orders if
      and only if the name occurs once. */
  lemma OrdersAgreeExactly(entries: seq<Entry<string>>, name: string)
    requires UniqueIds(entries) && Find(entries, name).Some?
    ensures (forall a, b :: multiset(a) == multiset(b) == multiset(entries) ==> SameRole(a, b, name))
            <==> Once(entries, name)
  {
    FirstIsLastExactly(entries, name);
    if Once(entries, name) {
      forall a, b | multiset(a) == multiset(b) == multiset(entries) ensures SameRole(a, b, name) {
        OnlyRoleIsFound(entries, a, b, name);
      }
    } else {
      assert !SameRole(entries, entries, name);
    }
  }

  lemma OnlyRoleIsFound(entries: seq<Entry<string>>, a: seq<Entry<string>>, b: seq<Entry<string>>, name: string)
    requires Find(entries, name).Some? && Once(entries, name)
    requires multiset(a) == multiset(b) == multiset(entries)
    ensures SameRole(a, b, name)
  {
    var e := Find(entries, name).value;
    SameMembers(a, entries);
    SameMembers(b, entries);
    assert e in a && e in b;
    var last := LastPlace(b, name);
    assert Find(a, name).Some? && FindLast(b, name).value in b;
    var i :| 0 <= i < |entries| && entries[i] == Find(a, name).value;
    var j :| 0 <= j < |entries| && entries[j] == FindLast(b, name).value;
    assert i == j;
  }

  /** The smallest case of disagreement. */
  lemma DuplicateNamesDisagree()
    ensures var entries := [Entry(1, "admin", ""), Entry(2, "admin", "")];
            !SameRole(entries, entries, "admin")
  {
    var entries := [Entry(1, "admin", ""), Entry(2, "admin", "")];
    FirstIsLastExactly(entries, "admin");
    assert entries[0].name == entries[1].name == "admin";
  }

  method IndexByName(answer: seq<Entry<string>>) returns (index: map<string, nat>)
    ensures forall n :: n in index <==> FindLast(answer, n).Some?
    ensures forall n :: n in index ==> index[n] == FindLast(answer, n).value.id
  {
    index := map[];
    var i := 0;
    while i < |answer|
      invariant i <= |answer|
      invariant forall n :: n in index <==> FindLast(answer[..i], n).Some?
      invariant forall n :: n in index ==> index[n] == FindLast(answer[..i], n).value.id
    {
      assert answer[..i + 1][..i] == answer[..i];
      index := index[answer[i].name := answer[i].id];
      i := i + 1;
    }
    assert answer[..i] == answer;
  }

  /** Resolves every wanted name, or none of them counts. */
  method ResolveNames(index: map<string, nat>, names: seq<string>) returns (ids: Option<set<nat>>)
    ensures ids.Some? <==> forall n :: n in names ==> n in index
    ensures ids.Some? ==> ids.value == set n | n in names && n in index :: index[n]
  {
    var want: set<nat> := {};
    var i := 0;
    while i < |names|
      invariant i <= |names|
      invariant forall n :: n in names[..i] ==> n in index
      invariant want == set n | n in names[..i] && n in index :: index[n]
    {
      if names[i] !in index {
        return None;
      }
      assert names[..i + 1] == names[..i] + [names[i]];
      want := want + {index[names[i]]};
      i := i + 1;
    }
    assert names[..i] == names;
    ids := Some(want);
  }

  lemma IndexMeansNames(s: Store<string>, answer: seq<Entry<string>>, index: map<string, nat>, names: seq<string>)
    requires Valid(s) && multiset(answer) == multiset(s.entries)
    requires forall n :: n in index <==> FindLast(answer, n).Some?
    requires forall n :: n in index ==> index[n] == FindLast(answer, n).value.id
    ensures (forall n :: n in names ==> n in index) <==> AllNamed(s.entries, names)
    ensures AllNamed(s.entries, names) ==>
              (set n | n in names && n in index :: index[n]) == IdsNamed(s.entries, names)
  {
    SameMembers(answer, s.entries);
    forall n ensures n in index <==> Find(s.entries, n).Some?
             ensures n in index ==> index[n] == Find(s.entries, n).value.id {
      FirstIsLast(s.entries, answer, n);
    }
    forall e | e in s.entries ensures Find(s.entries, e.name) == Some(e) {
      FindIsExact(s, e);
    }
  }

  // ---- the write loops ----

  predicate Assigns(current: set<nat>, want: set<nat>, ws: seq<Write>) {
    && (forall w :: w in ws ==> w.Assign? && w.id in want - current)
    && (forall i, j :: 0 <= i < j < |ws| ==> ws[i] != ws[j])
  }

  predicate AssignsAll(current: set<nat>, want: set<nat>, ws: seq<Write>) {
    Assigns(current, want, ws) && forall id :: id in want - current ==> Assign(id) in ws
  }

  predicate Removes(current: set<nat>, want: set<nat>, ws: seq<Write>) {
    && (forall w :: w in ws ==> w.Remove? && w.id in current - want)
    && (forall i, j :: 0 <= i < j < |ws| ==> ws[i] != ws[j])
  }

  predicate RemovesAll(current: set<nat>, want: set<nat>, ws: seq<Write>) {
    Removes(current, want, ws) && forall id :: id in current - want ==> Remove(id) in ws
  }

  lemma OneMoreAssigned(current: set<nat>, seen: set<nat>, ws: seq<Write>, id: nat)
    requires AssignsAll(current, seen, ws) && id !in seen
    ensures id in current ==> AssignsAll(current, seen + {id}, ws)
    ensures id !in current ==> AssignsAll(current, seen + {id}, ws + [Assign(id)])
    ensures Assigns(current, seen + {id}, ws)
  {
  }

  lemma OneMoreRemoved(seen: set<nat>, want: set<nat>, ws: seq<Write>, id: nat)
    requires RemovesAll(seen, want, ws) && id !in seen
    ensures id in want ==> RemovesAll(seen + {id}, want, ws)
    ensures id !in want ==> RemovesAll(seen + {id}, want, ws + [Remove(id)])
    ensures Removes(seen + {id}, want, ws)
  {
  }

  lemma AssignsThenRemoves(current: set<nat>, want: set<nat>, a: seq<Write>, r: seq<Write>)
    requires Assigns(current, want, a) && Removes(current, want, r)
    requires r == [] || AssignsAll(current, want, a)
    ensures IsPlan(current, want, a + r)
  {
    forall i | 0 <= i < |a + r| && (a + r)[i].Remove?
      ensures forall id :: id in want - current ==> Assign(id) in (a + r)[..i]
    {
      assert (a + r)[..i] == a + r[..i - |a|];
    }
  }

  lemma ApplyOneMore(members: set<nat>, ws: seq<Write>, w: Write)
    ensures Apply(members, ws + [w]) == Applied(Apply(members, ws), w)
  {
    assert (ws + [w])[..|ws|] == ws;
  }

  lemma {:induction false} ApplyBoth(members: set<nat>, a: seq<Write>, r: seq<Write>)
    ensures Apply(members, a + r) == Apply(Apply(members, a), r)
  {
    if r == [] {
      assert a + r == a;
    } else {
      var n := |r| - 1;
      ApplyBoth(members, a, r[..n]);
      assert a + r == a + r[..n] + [r[n]];
      ApplyOneMore(members, a + r[..n], r[n]);
    }
  }

  /** Only this group's assignments changed, and by exactly these writes. */
  twostate predicate Wrote(api: OrgApi, gid: nat, ws: seq<Write>)
    reads api
  {
    && api.Good() && Later(old(api.roles), api.roles) && api.groups == old(api.groups)
    && api.writes == old(api.writes) + ws
    && api.Stored(gid) == Apply(old(api.Stored(gid)), ws)
    && forall g :: g != gid ==> api.Stored(g) == old(api.Stored(g))
  }

  /** The writes numbered `from` up to `calls` were sent: all but the last succeeded, the last one exactly
      when the loop did, and every one that took effect counts as a write. */
  predicate StoppedAtTheFirstError(s: Weather, from: nat, calls: nat, ok: bool, written: nat) {
    && from <= calls
    && (forall k :: from <= k < calls - 1 ==> s.outcome(k) == Done)
    && (if ok then from < calls ==> s.outcome(calls - 1) == Done
        else from < calls && s.outcome(calls - 1) != Done)
    && written == calls - from - (if !ok && s.outcome(calls - 1) == Failed then 1 else 0)
  }

  method AssignMissing(api: OrgApi, gid: nat, currentIds: set<nat>, wantIds: set<nat>, s: Weather)
    returns (ok: bool, calls: nat, ghost plan: seq<Write>)
    requires api.Good() && Ordinary(s) && gid < api.groups.next && KnownIds(wantIds, api.roles)
    modifies api`roles, api`members, api`writes
    ensures Wrote(api, gid, plan) && Assigns(currentIds, wantIds, plan)
    ensures ok ==> AssignsAll(currentIds, wantIds, plan)
    ensures FaultFree(s) ==> ok
    ensures StoppedAtTheFirstError(s, 2, calls, ok, |plan|)
  {
    assert Apply(api.Stored(gid), []) == api.Stored(gid);
    hide Apply, Applied, Valid, Later, AfterAll;
    LaterIsAPreorder(api.roles, api.roles, api.roles);
    calls, plan := 2, [];
    var seen, todo := {}, wantIds;
    while todo != {}
      invariant seen !! todo && seen + todo == wantIds
      invariant Wrote(api, gid, plan) && AssignsAll(currentIds, seen, plan)
      invariant StoppedAtTheFirstError(s, 2, calls, true, |plan|)
    {
      var id :| id in todo;
      OneMoreAssigned(currentIds, seen, plan, id);
      seen, todo := seen + {id}, todo - {id};
      if id !in currentIds {
        ghost var roles := api.roles;
        ok := api.Perform(gid, Assign(id), s.others(calls), s.outcome(calls));
        LaterIsAPreorder(old(api.roles), roles, api.roles);
        if s.outcome(calls).TookEffect() {
          ApplyOneMore(old(api.Stored(gid)), plan, Assign(id));
          plan := plan + [Assign(id)];
        }
        calls := calls + 1;
        if !ok {
          return;
        }
      }
    }
    ok := true;
  }

  method RemoveExtra(api: OrgApi, gid: nat, currentIds: set<nat>, wantIds: set<nat>, done: nat, s: Weather)
    returns (ok: bool, calls: nat, ghost plan: seq<Write>)
    requires api.Good() && Ordinary(s) && gid < api.groups.next && KnownIds(currentIds, api.roles)
    modifies api`roles, api`members, api`writes
    ensures Wrote(api, gid, plan) && Removes(currentIds, wantIds, plan)
    ensures ok ==> RemovesAll(currentIds, wantIds, plan)
    ensures FaultFree(s) ==> ok
    ensures StoppedAtTheFirstError(s, done, calls, ok, |plan|)
  {
    assert Apply(api.Stored(gid), []) == api.Stored(gid);
    hide Apply, Applied, Valid, Later, AfterAll;
    LaterIsAPreorder(api.roles, api.roles, api.roles);
    calls, plan := done, [];
    var seen, todo := {}, currentIds;
    while todo != {}
      invariant seen !! todo && seen + todo == currentIds
      invariant Wrote(api, gid, plan) && RemovesAll(seen, wantIds, plan)
      invariant StoppedAtTheFirstError(s, done, calls, true, |plan|)
    {
      var id :| id in todo;
      OneMoreRemoved(seen, wantIds, plan, id);
      seen, todo := seen + {id}, todo - {id};
      if id !in wantIds {
        ghost var roles := api.roles;
        ok := api.Perform(gid, Remove(id), s.others(calls), s.outcome(calls));
        LaterIsAPreorder(old(api.roles), roles, api.roles);
        if s.outcome(calls).TookEffect() {
          ApplyOneMore(old(api.Stored(gid)), plan, Remove(id));
          plan := plan + [Remove(id)];
        }
        calls := calls + 1;
        if !ok {
          return;
        }
      }
    }
    ok := true;
  }

  lemma DonePlanReaches(current: set<nat>, want: set<nat>, plan: seq<Write>)
    requires IsPlan(current, want, plan)
    requires forall id :: id in want - current ==> Assign(id) in plan
    requires forall id :: id in current - want ==> Remove(id) in plan
    ensures Apply(current, plan) == want
  {
    PlanReaches(current, want, plan);
  }

  /** Two sets that agree on an ID still do after the same writes. */
  lemma {:induction false} ApplyAgrees(a: set<nat>, b: set<nat>, ws: seq<Write>, id: nat)
    requires id in a <==> id in b
    ensures id in Apply(a, ws) <==> id in Apply(b, ws)
  {
    if ws != [] {
      ApplyAgrees(a, b, ws[..|ws| - 1], id);
    }
  }

  /** Whether or not assignments of deleted roles are still listed, the writes planned from a listing
      do to a later listing what they were planned to do. */
  lemma WritesReachTheListing(cascade: bool, stored: set<nat>, want: set<nat>, plan: seq<Write>,
                              earlier: Store<string>, now: Store<string>)
    requires Later(earlier, now) && KnownIds(stored, earlier)
    requires Apply(Shown(cascade, stored, earlier), plan) == want
    ensures Shown(cascade, Apply(stored, plan), now) == Shown(cascade, want, now)
  {
    if cascade {
      forall id | id in IdsOf(now.entries) ensures id in Apply(stored, plan) <==> id in want {
        ApplyAgrees(stored, Shown(cascade, stored, earlier), plan, id);
      }
    }
  }

  /** The roles that the pass's own listing shows. */
  function RolesListed(roles: Store<string>, s: Weather): Store<string> {
    AfterAll(roles, s.others(0))
  }

  /** The roles that exist when the group's own roles are listed. */
  function RolesThen(roles: Store<string>, s: Weather): Store<string> {
    AfterAll(RolesListed(roles, s), s.others(1))
  }

  /** The calls of a sync: two listings, then the writes. Only the last one may have failed, and the writes
      that took effect are those sent but for a failed one. */
  predicate SyncCalls(s: Weather, calls: nat, ok: bool, written: nat) {
    && 1 <= calls && (forall k :: 0 <= k < calls - 1 ==> s.outcome(k) == Done)
    && (ok ==> 2 <= calls && s.outcome(calls - 1) == Done)
    && written == if calls <= 2 then 0 else calls - 2 - (if s.outcome(calls - 1) == Failed then 1 else 0)
  }

  /** What a sync does to a group that had these assignments `was` when the roles were `before`: its
      writes are a plan from what was listed of them to the roles that its own listing of roles showed. */
  ghost predicate SyncResult(cascade: bool, was: set<nat>, before: Store<string>, names: seq<string>, s: Weather,
                             ok: bool, calls: nat, plan: seq<Write>, shown: set<nat>, now: Store<string>)
  {
    var listed := RolesListed(before, s);
    var want := IdsNamed(listed.entries, names);
    && IsPlan(Shown(cascade, was, RolesThen(before, s)), want, plan)
    && (!AllNamed(listed.entries, names) ==> plan == [] && !ok && calls == 1)
    && (ok ==> shown == Shown(cascade, want, now))
    && (ok && (forall n :: n in names ==> Survives(listed, now, n)) ==> shown == IdsNamed(now.entries, names))
    && (FaultFree(s) && AllNamed(listed.entries, names) ==> ok)
    && (!ok && AllNamed(listed.entries, names) ==> 1 <= calls && s.outcome(calls - 1) != Done)
    && SyncCalls(s, calls, ok, |plan|)
  }

  /** The part of a sync after the names are resolved. */
  method SyncTo(api: OrgApi, gid: nat, ids: set<nat>, s: Weather) returns (ok: bool, calls: nat, ghost plan: seq<Write>)
    requires api.Good() && Ordinary(s) && gid < api.groups.next && KnownIds(ids, api.roles)
    modifies api`roles, api`members, api`writes
    ensures Wrote(api, gid, plan)
    ensures IsPlan(Shown(api.cascade, old(api.Stored(gid)), AfterAll(old(api.roles), s.others(1))), ids, plan)
    ensures ok ==> api.MembersOf(gid) == Shown(api.cascade, ids, api.roles)
    ensures FaultFree(s) ==> ok
    ensures 2 <= calls && (ok <==> s.outcome(calls - 1) == Done)
    ensures forall k :: 1 <= k < calls - 1 ==> s.outcome(k) == Done
    ensures |plan| == if calls == 2 then 0 else calls - 2 - (if s.outcome(calls - 1) == Failed then 1 else 0)
  {
    assert Apply(api.Stored(gid), []) == api.Stored(gid);
    hide AfterAll, Apply;
    ok, calls, plan := false, 2, [];
    api.RunRolePasses(s.others(1));
    if s.outcome(1) != Done {
      return;
    }
    var currentIds := api.MembersOf(gid);
    ghost var earlier := api.roles;
    ok, calls, plan := ConvergeTo(api, gid, currentIds, ids, s);
    if ok {
      WritesReachTheListing(api.cascade, old(api.Stored(gid)), ids, plan, earlier, api.roles);
    }
  }

  /** Converges the group's roles to those that its own listing of roles showed under the names. */
  method SyncGroupRoles(api: OrgApi, gid: nat, names: seq<string>, s: Weather)
    returns (ok: bool, calls: nat, ghost plan: seq<Write>)
    requires api.Good() && Ordinary(s) && gid < api.groups.next
    modifies api`roles, api`members, api`writes
    ensures Wrote(api, gid, plan)
    ensures SyncResult(api.cascade, old(api.Stored(gid)), old(api.roles), names, s, ok, calls, plan,
                       api.MembersOf(gid), api.roles)
  {
    assert Apply(api.Stored(gid), []) == api.Stored(gid);
    NoWritesIsAPlan();
    hide AfterAll, Apply, Find, Later, IsPlan, IdsNamed, Survives, AllNamed, Valid;
    ok, calls, plan := false, 1, [];
    var ids := WantedIds(api, names, s);
    LaterIsAPreorder(old(api.roles), api.roles, api.roles);
    if ids.None? {
      return;
    }
    ghost var listed := api.roles;
    ok, calls, plan := SyncTo(api, gid, ids.value, s);
    LaterIsAPreorder(old(api.roles), listed, api.roles);
    SurvivorsAreShown(api.cascade, listed, api.roles, names);
  }

  lemma SurvivorsAreShown(cascade: bool, listed: Store<string>, now: Store<string>, names: seq<string>)
    requires Valid(listed) && Valid(now) && Later(listed, now) && AllNamed(listed.entries, names)
    ensures (forall n :: n in names ==> Survives(listed, now, n)) ==>
              Shown(cascade, IdsNamed(listed.entries, names), now) == IdsNamed(now.entries, names)
  {
    TargetStandsExactly(listed, now, names);
  }

  method WantedIds(api: OrgApi, names: seq<string>, s: Weather) returns (ids: Option<set<nat>>)
    requires api.Good() && Ordinary(s)
    modifies api`roles
    ensures api.Good() && Later(old(api.roles), api.roles) && api.roles == RolesListed(old(api.roles), s)
    ensures ids.Some? <==> s.outcome(0) == Done && AllNamed(api.roles.entries, names)
    ensures ids.Some? ==> ids.value == IdsNamed(api.roles.entries, names) && KnownIds(ids.value, api.roles)
  {
    api.RunRolePasses(s.others(0));
    if s.outcome(0) != Done {
      return None;
    }
    var answer := s.roleOrder(api.roles.entries);
    var index := IndexByName(answer);
    ids := ResolveNames(index, names);
    IndexMeansNames(api.roles, answer, index, names);
  }

  method ConvergeTo(api: OrgApi, gid: nat, currentIds: set<nat>, wantIds: set<nat>, s: Weather)
    returns (ok: bool, calls: nat, ghost plan: seq<Write>)
    requires api.Good() && Ordinary(s) && gid < api.groups.next
    requires KnownIds(currentIds, api.roles) && KnownIds(wantIds, api.roles)
    modifies api`roles, api`members, api`writes
    ensures Wrote(api, gid, plan) && IsPlan(currentIds, wantIds, plan)
    ensures ok ==> Apply(currentIds, plan) == wantIds
    ensures FaultFree(s) ==> ok
    ensures StoppedAtTheFirstError(s, 2, calls, ok, |plan|)
  {
    assert Removes(currentIds, wantIds, []);
    hide Apply, Valid, IsPlan, Assigns, Removes;
    ok, calls, plan := AssignMissing(api, gid, currentIds, wantIds, s);
    AssignsThenRemoves(currentIds, wantIds, plan, []);
    assert plan + [] == plan;
    if !ok {
      return;
    }
    ghost var first, second := plan, [];
    ok, calls, second := RemoveExtra(api, gid, currentIds, wantIds, calls, s);
    plan := first + second;
    assert api.writes == old(api.writes) + plan;
    ApplyBoth(old(api.Stored(gid)), first, second);
    AssignsThenRemoves(currentIds, wantIds, first, second);
    assert Wrote(api, gid, plan);
    if ok {
      DonePlanReaches(currentIds, wantIds, plan);
    }
  }

  /** Creates the group when its name is missing, then converges its roles, while ClavexRole passes
      create and delete roles before each of its calls. A name that its own listing of roles misses leaves
      the membership of every group alone; when the listing shows them all, a fault-free pass reaches
      exactly those roles, and exactly the roles named by spec if none of them was deleted meanwhile. */
  method ReconcileGroup(api: OrgApi, name: string, roleNames: seq<string>, s: Weather, list: Outcome, create: Outcome)
    returns (gid: Option<nat>, ok: bool, calls: nat, ghost plan: seq<Write>)
    requires api.Good() && Ordinary(s)
    modifies api
    ensures api.Good() && Later(old(api.roles), api.roles)
    ensures var p := Pass<()>.Reconcile(name, (), None, list, create);
            api.groups == After(old(api.groups), p) && gid == Reported(old(api.groups), p)
    ensures api.writes == old(api.writes) + plan
    ensures forall g: nat :: gid != Some(g) ==> api.Stored(g) == old(api.Stored(g))
    ensures gid.Some? ==>
              && api.Stored(gid.value) == Apply(old(api.Stored(gid.value)), plan)
              && SyncResult(api.cascade, old(api.Stored(gid.value)), old(api.roles), roleNames, s, ok, calls, plan,
                            api.MembersOf(gid.value), api.roles)
    ensures gid.None? ==> !ok && plan == [] && calls == 0
  {
    ok, calls, plan := false, 0, [];
    gid := EnsureGroup(api, name, s, list, create);
    if gid.None? {
      return;
    }
    hide SyncResult, Valid;
    ok, calls, plan := SyncGroupRoles(api, gid.value, roleNames, s);
  }

  /** Looks the group up and creates it when it is missing. */
  method EnsureGroup(api: OrgApi, name: string, s: Weather, list: Outcome, create: Outcome) returns (gid: Option<nat>)
    requires api.Good() && Ordinary(s)
    modifies api`groups
    ensures api.Good()
    ensures var p := Pass<()>.Reconcile(name, (), None, list, create);
            api.groups == After(old(api.groups), p) && gid == Reported(old(api.groups), p)
    ensures gid.Some? ==> gid.value < api.groups.next
  {
    PassKeepsValid(api.groups, Pass<()>.Reconcile(name, (), None, list, create));
    if list != Done {
      return None;
    }
    var answer := s.groupOrder(api.groups.entries);
    var existing := FindByName(answer, name);
    SameMembers(answer, api.groups.entries);
    FindIgnoresOrder(api.groups.entries, answer, name);
    if existing.Some? {
      return Some(existing.value.id);
    }
    gid := if create == Done then Some(api.groups.next) else None;
    if create.TookEffect() {
      api.groups := Store(api.groups.entries + [Entry(api.groups.next, name, ())], api.groups.next + 1);
    }
  }
}
