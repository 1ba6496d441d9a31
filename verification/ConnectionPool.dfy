/** The pool of per-org stream connections: discovery, on-demand opens, shutdown
    (EnsureOrgWithKey, discover, reconcileConns, shutdown and Start in internal/eventstream/eventstream.go;
    stop and the goroutine's lifetime in internal/eventstream/conn.go). */
module ConnectionPool {
  import opened Prelude
  import opened Secrets
  import opened EventQueue

  /** The coordinates remembered for a slug. */
  datatype Coord = Coord(secretRef: SecretRef, namespace: string)

  type KeyResolver = (SecretRef, string) -> Option<string>

  class Conn {
    const slug: string
    const apiKey: string
    var running: bool       // its goroutine is live

    constructor (slug: string, apiKey: string)
      ensures this.slug == slug && this.apiKey == apiKey && !running
    {
      this.slug, this.apiKey := slug, apiKey;
      running := false;
    }

    /** `go c.run(ctx)`. */
    method Go()
      modifies this
      ensures running
    {
      running := true;
    }

    /** Cancels and blocks until the goroutine has exited. */
    method Stop()
      modifies this
      ensures !running
    {
      running := false;
    }
  }

  // ---- what discovery should find ----

  function Items(listing: Listing): seq<Item> {
    if listing.Listed? then listing.items else []
  }

  /** The first CR of an org in a listing; CRs without an org slug are passed over. */
  function FirstOf(items: seq<Item>, slug: string): (r: Option<Item>)
    ensures r.Some? ==> r.value in items && r.value.orgSlug == slug && slug != ""
    ensures r.None? <==> slug == "" || forall item :: item in items ==> item.orgSlug != slug
  {
    if items == [] || slug == "" then None
    else if items[0].orgSlug == slug then Some(items[0])
    else FirstOf(items[1..], slug)
  }

  function CoordOf(item: Item): Coord {
    Coord(item.secretRef, item.namespace)
  }

  predicate Shows(lister: Lister, kind: string, slug: string) {
    FirstOf(Items(lister(kind)), slug).Some?
  }

  /** A slug is desired when some kind's listing succeeded and shows a CR of that org. */
  ghost predicate Desired(kinds: set<string>, lister: Lister, slug: string) {
    exists kind :: kind in kinds && Shows(lister, kind, slug)
  }

  /** The coordinates of the first CR of that org in some kind's listing. */
  ghost predicate CoordFrom(kinds: set<string>, lister: Lister, slug: string, c: Coord) {
    exists kind :: kind in kinds && Shows(lister, kind, slug) && c == CoordOf(FirstOf(Items(lister(kind)), slug).value)
  }

  ghost predicate IsDiscovery(kinds: set<string>, lister: Lister, found: map<string, Coord>) {
    && (forall slug :: slug in found <==> Desired(kinds, lister, slug))
    && (forall slug :: slug in found ==> CoordFrom(kinds, lister, slug, found[slug]))
  }

  predicate Resolves(resolveKey: KeyResolver, coord: Coord) {
    resolveKey(coord.secretRef, coord.namespace).Some?
  }

  /** What a tick leaves in a pool that held `connected` when the tick took the lock. */
  function PoolAfter(connected: set<string>, desired: map<string, Coord>, resolveKey: KeyResolver): set<string> {
    set slug | slug in desired && (slug in connected || Resolves(resolveKey, desired[slug]))
  }

  // ---- the order of the visit ----

  function MergeOne(before: map<string, Coord>, item: Item): map<string, Coord> {
    if item.orgSlug == "" || item.orgSlug in before then before else before[item.orgSlug := CoordOf(item)]
  }

  function Merge(before: map<string, Coord>, items: seq<Item>): map<string, Coord> {
    if items == [] then before else MergeOne(Merge(before, items[..|items| - 1]), items[|items| - 1])
  }

  function Visit(order: seq<string>, lister: Lister): map<string, Coord> {
    if order == [] then map[]
    else Merge(Visit(order[..|order| - 1], lister), Items(lister(order[|order| - 1])))
  }

  /** A map's range loop meets each key once, in any order. */
  ghost predicate Lists(order: seq<string>, kinds: set<string>) {
    && (forall kind :: kind in order <==> kind in kinds)
    && (forall i, j :: 0 <= i < j < |order| ==> order[i] != order[j])
  }

  /** Every order finds the same slugs, each with coordinates that some kind's listing shows first. */
  lemma {:induction false} VisitDiscovers(order: seq<string>, kinds: set<string>, lister: Lister)
    requires forall kind :: kind in order <==> kind in kinds
    ensures IsDiscovery(kinds, lister, Visit(order, lister))
  {
    if order != [] {
      var n := |order| - 1;
      var done := set kind | kind in order[..n];
      assert order == order[..n] + [order[n]];
      VisitDiscovers(order[..n], done, lister);
      MergeRemembers(Visit(order[..n], lister), Items(lister(order[n])));
      DiscoveryGrows(done, lister, order[n], Visit(order[..n], lister), Visit(order, lister));
      assert kinds == done + {order[n]};
    }
  }

  function FirstOrNext(items: seq<Item>, next: Item, slug: string): Option<Item> {
    if FirstOf(items, slug).None? && slug != "" && next.orgSlug == slug then Some(next) else FirstOf(items, slug)
  }

  lemma {:induction false} FirstOfAppended(items: seq<Item>, next: Item, slug: string)
    ensures FirstOf(items + [next], slug) == FirstOrNext(items, next, slug)
  {
    if items != [] {
      assert (items + [next])[1..] == items[1..] + [next];
      FirstOfAppended(items[1..], next, slug);
    }
  }

  /** A listing adds its orgs, each with its first CR, and what is remembered already stays. */
  ghost predicate Remembers(before: map<string, Coord>, items: seq<Item>, after: map<string, Coord>) {
    && (forall slug :: slug in after <==> slug in before || FirstOf(items, slug).Some?)
    && (forall slug :: slug in after ==>
          after[slug] == if slug in before then before[slug] else CoordOf(FirstOf(items, slug).value))
  }

  lemma RemembersOneMore(before: map<string, Coord>, items: seq<Item>, after: map<string, Coord>, next: Item)
    requires Remembers(before, items, after)
    ensures Remembers(before, items + [next], MergeOne(after, next))
  {
    var after' := MergeOne(after, next);
    forall slug
      ensures slug in after' <==> slug in before || FirstOf(items + [next], slug).Some?
      ensures slug in after' ==>
                after'[slug] == if slug in before then before[slug] else CoordOf(FirstOf(items + [next], slug).value)
    {
      FirstOfAppended(items, next, slug);
    }
  }

  lemma {:induction false} MergeRemembers(before: map<string, Coord>, items: seq<Item>)
    ensures Remembers(before, items, Merge(before, items))
  {
    if items != [] {
      var n := |items| - 1;
      MergeRemembers(before, items[..n]);
      RemembersOneMore(before, items[..n], Merge(before, items[..n]), items[n]);
      assert items == items[..n] + [items[n]];
    }
  }

  lemma DiscoveryGrows(done: set<string>, lister: Lister, kind: string,
                       before: map<string, Coord>, after: map<string, Coord>)
    requires IsDiscovery(done, lister, before) && Remembers(before, Items(lister(kind)), after)
    ensures IsDiscovery(done + {kind}, lister, after)
  {
    hide FirstOf;
    forall slug | slug in after ensures CoordFrom(done + {kind}, lister, slug, after[slug]) {
      if slug !in before {
        assert Shows(lister, kind, slug);
      } else {
        assert CoordFrom(done, lister, slug, before[slug]);
      }
    }
    forall slug | Desired(done + {kind}, lister, slug) ensures slug in after {
      if Desired(done, lister, slug) {
        assert slug in before;
      } else {
        assert Shows(lister, kind, slug);
      }
    }
  }

  lemma {:induction false} FirstKindWins(order: seq<string>, lister: Lister, slug: string)
    requires order != [] && Shows(lister, order[0], slug)
    ensures slug in Visit(order, lister)
    ensures Visit(order, lister)[slug] == CoordOf(FirstOf(Items(lister(order[0])), slug).value)
  {
    var n := |order| - 1;
    MergeRemembers(Visit(order[..n], lister), Items(lister(order[n])));
    hide Merge, FirstOf;
    if n > 0 {
      FirstKindWins(order[..n], lister, slug);
    } else {
      assert order[..0] == [];
    }
  }

  lemma {:induction false} SomeOrder(kinds: set<string>) returns (order: seq<string>)
    ensures Lists(order, kinds)
  {
    order := [];
    if kinds != {} {
      var kind :| kind in kinds;
      order := SomeOrder(kinds - {kind});
      order := order + [kind];
    }
  }

  lemma OrderFrom(kinds: set<string>, kind: string) returns (order: seq<string>)
    requires kind in kinds
    ensures Lists(order, kinds) && order != [] && order[0] == kind
  {
    var rest := SomeOrder(kinds - {kind});
    order := [kind] + rest;
  }

  /** The kinds that show an org that is not connected yet agree on whether its key can be had. */
  ghost predicate KeysAgree(kinds: set<string>, lister: Lister, connected: set<string>, resolveKey: KeyResolver) {
    forall slug, c, d ::
      slug !in connected && CoordFrom(kinds, lister, slug, c) && CoordFrom(kinds, lister, slug, d) ==>
      (Resolves(resolveKey, c) <==> Resolves(resolveKey, d))
  }

  ghost predicate OrderIsImmaterial(kinds: set<string>, lister: Lister, connected: set<string>,
                                    resolveKey: KeyResolver) {
    forall a, b :: Lists(a, kinds) && Lists(b, kinds) ==>
      PoolAfter(connected, Visit(a, lister), resolveKey) == PoolAfter(connected, Visit(b, lister), resolveKey)
  }

  /** Which slugs are discovered never depends on the order of the visit, but which coordinates are
      remembered does. The resulting pool is independent of the order exactly when KeysAgree holds. */
  lemma OrderIsImmaterialExactly(kinds: set<string>, lister: Lister, connected: set<string>, resolveKey: KeyResolver)
    ensures OrderIsImmaterial(kinds, lister, connected, resolveKey)
            <==> KeysAgree(kinds, lister, connected, resolveKey)
  {
    if KeysAgree(kinds, lister, connected, resolveKey) {
      forall a, b | Lists(a, kinds) && Lists(b, kinds)
        ensures PoolAfter(connected, Visit(a, lister), resolveKey) == PoolAfter(connected, Visit(b, lister), resolveKey)
      {
        AgreeingKeysFixThePool(kinds, lister, connected, resolveKey, a, b);
      }
    }
    if OrderIsImmaterial(kinds, lister, connected, resolveKey) {
      forall slug, c, d | slug !in connected && CoordFrom(kinds, lister, slug, c) && CoordFrom(kinds, lister, slug, d)
        ensures Resolves(resolveKey, c) <==> Resolves(resolveKey, d)
      {
        var a := OrderRemembering(kinds, lister, slug, c);
        var b := OrderRemembering(kinds, lister, slug, d);
        assert slug in PoolAfter(connected, Visit(a, lister), resolveKey) <==> Resolves(resolveKey, c);
        assert slug in PoolAfter(connected, Visit(b, lister), resolveKey) <==> Resolves(resolveKey, d);
      }
    }
  }

  lemma AgreeingKeysFixThePool(kinds: set<string>, lister: Lister, connected: set<string>, resolveKey: KeyResolver,
                               a: seq<string>, b: seq<string>)
    requires KeysAgree(kinds, lister, connected, resolveKey) && Lists(a, kinds) && Lists(b, kinds)
    ensures PoolAfter(connected, Visit(a, lister), resolveKey) == PoolAfter(connected, Visit(b, lister), resolveKey)
  {
    VisitDiscovers(a, kinds, lister);
    VisitDiscovers(b, kinds, lister);
    var x, y := Visit(a, lister), Visit(b, lister);
    hide Visit, CoordFrom, Desired;
    forall slug ensures slug in PoolAfter(connected, x, resolveKey) <==> slug in PoolAfter(connected, y, resolveKey) {
      if slug in x {
        assert CoordFrom(kinds, lister, slug, x[slug]) && CoordFrom(kinds, lister, slug, y[slug]);
      }
    }
  }

  /** Every listing that shows an org first decides its coordinates in some order. */
  lemma OrderRemembering(kinds: set<string>, lister: Lister, slug: string, c: Coord) returns (order: seq<string>)
    requires CoordFrom(kinds, lister, slug, c)
    ensures Lists(order, kinds) && slug in Visit(order, lister) && Visit(order, lister)[slug] == c
  {
    var kind :| kind in kinds && Shows(lister, kind, slug) && c == CoordOf(FirstOf(Items(lister(kind)), slug).value);
    order := OrderFrom(kinds, kind);
    FirstKindWins(order, lister, slug);
  }

  // ---- discover ----

  predicate IsFirstItem(items: seq<Item>, slug: string, i: nat) {
    i < |items| && items[i].orgSlug == slug && forall j :: 0 <= j < i ==> items[j].orgSlug != slug
  }

  /** In plain terms: these are the Secret reference and the namespace of the first CR of the org in one
      listing. */
  ghost predicate CoordOfSomeItem(kinds: set<string>, lister: Lister, slug: string, c: Coord) {
    exists kind, i: nat ::
      && kind in kinds && lister(kind).Listed? && IsFirstItem(lister(kind).items, slug, i)
      && c.secretRef == lister(kind).items[i].secretRef && c.namespace == lister(kind).items[i].namespace
  }

  lemma {:induction false} FirstOfIsFirst(items: seq<Item>, slug: string) returns (i: nat)
    requires FirstOf(items, slug).Some?
    ensures IsFirstItem(items, slug, i) && items[i] == FirstOf(items, slug).value
  {
    i := 0;
    if items[0].orgSlug != slug {
      var rest := FirstOfIsFirst(items[1..], slug);
      i := rest + 1;
    }
  }

  /** The slugs are exactly the nonempty ones of successfully listed CRs. */
  ghost predicate FoundInListings(kinds: set<string>, lister: Lister, found: map<string, Coord>) {
    && (forall slug :: slug in found <==>
          exists kind, item :: kind in kinds && lister(kind).Listed? && item in lister(kind).items
                               && item.orgSlug == slug && slug != "")
    && (forall slug :: slug in found ==> CoordOfSomeItem(kinds, lister, slug, found[slug]))
  }

  lemma DiscoveredItems(kinds: set<string>, lister: Lister, found: map<string, Coord>)
    requires IsDiscovery(kinds, lister, found)
    ensures FoundInListings(kinds, lister, found)
  {
    forall slug | slug in found ensures CoordOfSomeItem(kinds, lister, slug, found[slug]) && slug != "" {
      var kind :| kind in kinds && Shows(lister, kind, slug)
                  && found[slug] == CoordOf(FirstOf(Items(lister(kind)), slug).value);
      var i := FirstOfIsFirst(Items(lister(kind)), slug);
      assert lister(kind).items[i] in lister(kind).items;
    }
    forall slug, kind, item | kind in kinds && lister(kind).Listed? && item in lister(kind).items
                              && item.orgSlug == slug && slug != ""
      ensures slug in found
    {
      assert Shows(lister, kind, slug);
    }
  }

  /** Visits kinds in some order; for each slug the first CR seen is remembered. */
  method Discover(kinds: set<string>, lister: Lister) returns (found: map<string, Coord>, ghost order: seq<string>)
    ensures Lists(order, kinds) && found == Visit(order, lister)
    ensures IsDiscovery(kinds, lister, found)
    ensures FoundInListings(kinds, lister, found)
  {
    found, order := map[], [];
    var todo, done := kinds, {};
    while todo != {}
      invariant todo !! done && todo + done == kinds
      invariant Lists(order, done) && found == Visit(order, lister)
    {
      var kind :| kind in todo;
      todo, done := todo - {kind}, done + {kind};
      assert (order + [kind])[..|order|] == order;
      order := order + [kind];
      var listing := lister(kind);
      if listing.Listed? {
        found := Remember(found, listing.items);
      } else {
        assert Merge(found, []) == found;
      }
    }
    VisitDiscovers(order, kinds, lister);
    DiscoveredItems(kinds, lister, found);
  }

  method Remember(before: map<string, Coord>, items: seq<Item>) returns (after: map<string, Coord>)
    ensures after == Merge(before, items)
  {
    after := before;
    var i := 0;
    while i < |items|
      invariant i <= |items| && after == Merge(before, items[..i])
    {
      var it := items[i];
      assert items[..i + 1][..i] == items[..i];
      if it.orgSlug != "" {
        if it.orgSlug !in after {
          after := after[it.orgSlug := CoordOf(it)];
        }
      }
      i := i + 1;
    }
    assert items[..i] == items;
  }

  // ---- the pool ----

  /** A controller's EnsureOrgWithKey call. */
  datatype Ensure = Ensure(slug: string, apiKey: string)

  function Opened(calls: seq<Ensure>): set<string> {
    set call | call in calls && call.slug != "" && call.apiKey != "" :: call.slug
  }

  /** The key each org is first called with. */
  function FirstKeys(calls: seq<Ensure>): map<string, string> {
    if calls == [] then map[]
    else
      var before, call := FirstKeys(calls[..|calls| - 1]), calls[|calls| - 1];
      if call.slug == "" || call.apiKey == "" || call.slug in before then before
      else before[call.slug := call.apiKey]
  }

  lemma OneMoreCall(calls: seq<Ensure>, i: nat)
    requires i < |calls|
    ensures var before, call := FirstKeys(calls[..i]), calls[i];
            FirstKeys(calls[..i + 1]) ==
            if call.slug == "" || call.apiKey == "" || call.slug in before then before
            else before[call.slug := call.apiKey]
  {
    assert calls[..i + 1][..i] == calls[..i];
  }

  lemma {:induction false} FirstKeysAreOpened(calls: seq<Ensure>)
    ensures FirstKeys(calls).Keys == Opened(calls)
    ensures forall s :: s in FirstKeys(calls) ==> Ensure(s, FirstKeys(calls)[s]) in calls
  {
    if calls != [] {
      var n := |calls| - 1;
      FirstKeysAreOpened(calls[..n]);
      assert calls == calls[..n] + [calls[n]];
    }
  }

  /** One turn of Start's loop: what the listers and the key resolver answer, the controllers' calls that
      get the lock between discover and the rest of the tick, and those that follow the tick. */
  datatype Turn = Turn(kinds: set<string>, lister: Lister, during: seq<Ensure>, resolveKey: KeyResolver,
                       after: seq<Ensure>)

  /** The key that resolves from the Secret reference and the namespace of one listed CR of the org. */
  ghost predicate KeyOfSomeItem(turn: Turn, slug: string, apiKey: string) {
    exists kind, i: nat ::
      && kind in turn.kinds && turn.lister(kind).Listed? && IsFirstItem(turn.lister(kind).items, slug, i)
      && turn.resolveKey(turn.lister(kind).items[i].secretRef, turn.lister(kind).items[i].namespace) == Some(apiKey)
  }

  lemma ResolvedKeyIsOfAnItem(turn: Turn, desired: map<string, Coord>, slug: string, apiKey: string)
    requires FoundInListings(turn.kinds, turn.lister, desired) && slug in desired
    requires turn.resolveKey(desired[slug].secretRef, desired[slug].namespace) == Some(apiKey)
    ensures KeyOfSomeItem(turn, slug, apiKey)
  {
    assert CoordOfSomeItem(turn.kinds, turn.lister, slug, desired[slug]);
  }

  class Pool {
    var started: bool
    var conns: map<string, Conn>
    /** Every connection whose goroutine was ever started. */
    ghost var spawned: set<Conn>

    /** Every live goroutine is the one the pool holds under its slug, so no org has two. */
    ghost predicate Valid()
      reads this, spawned
      ensures Valid() ==> forall c, d :: c in spawned && d in spawned && c.running && d.running ==>
                                           c.slug == d.slug ==> c == d
    {
      && (forall slug :: slug in conns ==> conns[slug] in spawned && conns[slug].slug == slug)
      && (forall c :: c in spawned && c.running ==> c.slug in conns && conns[c.slug] == c)
    }

    constructor ()
      ensures Valid() && conns == map[] && spawned == {} && !started
    {
      started, conns, spawned := false, map[], {};
    }

    // Each of the next four is one step that leaves the pool valid, so Valid holds between any two of
    // them: no goroutine runs before its connection is stored, and none outlives its entry.

    method Insert(slug: string, c: Conn)
      requires Valid() && slug !in conns && c !in spawned && c.slug == slug && !c.running
      modifies this`conns, this`spawned
      ensures Valid() && conns == old(conns)[slug := c] && spawned == old(spawned) + {c}
    {
      spawned := spawned + {c};
      conns := conns[slug := c];
    }

    method Launch(slug: string)
      requires Valid() && slug in conns
      modifies conns[slug]
      ensures Valid() && conns[slug].running
    {
      conns[slug].Go();
    }

    method StopConn(slug: string)
      requires Valid() && slug in conns
      modifies conns[slug]
      ensures Valid() && !conns[slug].running
    {
      conns[slug].Stop();
    }

    method Remove(slug: string)
      requires Valid() && slug in conns && !conns[slug].running
      modifies this`conns
      ensures Valid() && conns == old(conns) - {slug}
    {
      conns := conns - {slug};
    }

    method Open(slug: string, apiKey: string)
      requires Valid() && slug !in conns
      modifies this`conns, this`spawned
      ensures Valid() && conns.Keys == old(conns.Keys) + {slug}
      ensures fresh(conns[slug]) && conns[slug].running && conns[slug].apiKey == apiKey
      ensures spawned == old(spawned) + {conns[slug]}
      ensures forall s :: s in old(conns) ==> conns[s] == old(conns[s])
    {
      var c := new Conn(slug, apiKey);
      Insert(slug, c);
      Launch(slug);
    }

    method EnsureOrgWithKey(slug: string, apiKey: string)
      requires Valid()
      modifies this`conns, this`spawned
      ensures Valid() && old(spawned) <= spawned && fresh(spawned - old(spawned))
      ensures forall s :: s in old(conns) ==> s in conns && conns[s] == old(conns[s])
      ensures conns.Keys == old(conns.Keys) + (if slug == "" || apiKey == "" || !started then {} else {slug})
      ensures slug in conns && slug !in old(conns) ==> conns[slug].apiKey == apiKey && conns[slug].running
    {
      if slug == "" || apiKey == "" {
        return;
      }
      if !started {
        return;
      }
      if slug in conns {
        return;
      }
      Open(slug, apiKey);
    }

    /** A goroutine leaves by itself once the manager's context is cancelled. */
    method GoroutineExits(c: Conn)
      requires Valid() && c in spawned
      modifies c
      ensures Valid() && !c.running
    {
      c.running := false;
    }

    /** The first loop of reconcileConns. */
    method OpenDesired(desired: map<string, Coord>, resolveKey: KeyResolver)
      requires Valid()
      modifies this`conns, this`spawned
      ensures Valid() && old(spawned) <= spawned && fresh(spawned - old(spawned))
      ensures forall s :: s in old(conns) ==> s in conns && conns[s] == old(conns[s])
      ensures forall s :: s in conns <==>
                (s in old(conns) || (s in desired && Resolves(resolveKey, desired[s])))
      ensures forall s :: s in conns && s !in old(conns) && s in desired ==>
                conns[s].running && Some(conns[s].apiKey) == resolveKey(desired[s].secretRef, desired[s].namespace)
    {
      var todo, done := desired.Keys, {};
      while todo != {}
        invariant todo !! done && todo + done == desired.Keys
        invariant Valid() && old(spawned) <= spawned && fresh(spawned - old(spawned))
        invariant forall s :: s in old(conns) ==> s in conns && conns[s] == old(conns[s])
        invariant forall s :: s in conns <==>
                    (s in old(conns) || (s in done && Resolves(resolveKey, desired[s])))
        invariant forall s :: s in conns && s !in old(conns) && s in desired ==>
                    conns[s].running && Some(conns[s].apiKey) == resolveKey(desired[s].secretRef, desired[s].namespace)
      {
        var slug :| slug in todo;
        todo, done := todo - {slug}, done + {slug};
        if slug !in conns {
          var key := resolveKey(desired[slug].secretRef, desired[slug].namespace);
          if key.Some? {
            Open(slug, key.value);
          }
        }
      }
    }

    /** The second loop: a connection leaves the pool only after its goroutine has exited. */
    method CloseAllBut(keep: set<string>)
      requires Valid()
      modifies this`conns, spawned
      ensures Valid() && spawned == old(spawned)
      ensures conns.Keys == old(conns.Keys) * keep
      ensures forall s :: s in conns ==> conns[s] == old(conns[s]) && conns[s].running == old(conns[s].running)
      ensures forall s :: s in old(conns) && s !in keep ==> !old(conns[s]).running
    {
      var todo := conns.Keys;
      while todo != {}
        invariant todo <= conns.Keys && Valid() && spawned == old(spawned)
        invariant conns.Keys == old(conns.Keys) * keep + todo
        invariant forall s :: s in conns ==> s in old(conns) && conns[s] == old(conns[s])
        invariant forall s :: s in conns ==> conns[s].running == old(conns[s].running)
        invariant forall s :: s in old(conns) && s !in keep && s !in todo ==> !old(conns[s]).running
      {
        var slug :| slug in todo;
        todo := todo - {slug};
        if slug !in keep {
          StopConn(slug);
          Remove(slug);
        }
      }
    }

    method EnsureAll(calls: seq<Ensure>)
      requires Valid()
      modifies this`conns, this`spawned
      ensures Valid() && old(spawned) <= spawned && fresh(spawned - old(spawned))
      ensures forall s :: s in old(conns) ==> s in conns && conns[s] == old(conns[s])
      ensures conns.Keys == old(conns.Keys) + (if started then Opened(calls) else {})
      ensures forall s :: s in conns && s !in old(conns) ==>
                s in FirstKeys(calls) && conns[s].apiKey == FirstKeys(calls)[s] && conns[s].running
    {
      assert FirstKeys(calls[..0]) == map[];
      hide FirstKeys, Opened;
      var i := 0;
      while i < |calls|
        invariant i <= |calls|
        invariant Valid() && old(spawned) <= spawned && fresh(spawned - old(spawned))
        invariant forall s :: s in old(conns) ==> s in conns && conns[s] == old(conns[s])
        invariant conns.Keys == old(conns.Keys) + (if started then FirstKeys(calls[..i]).Keys else {})
        invariant forall s :: s in conns && s !in old(conns) ==>
                    s in FirstKeys(calls[..i]) && conns[s].apiKey == FirstKeys(calls[..i])[s] && conns[s].running
      {
        OneMoreCall(calls, i);
        EnsureOrgWithKey(calls[i].slug, calls[i].apiKey);
        i := i + 1;
      }
      assert calls[..i] == calls;
      FirstKeysAreOpened(calls);
    }

    /** On-demand calls that get the lock first, then the opening half of the tick. */
    method OpenAll(during: seq<Ensure>, desired: map<string, Coord>, resolveKey: KeyResolver)
      requires Valid() && started
      modifies this`conns, this`spawned
      ensures Valid() && old(spawned) <= spawned && fresh(spawned - old(spawned))
      ensures forall s :: s in old(conns) ==> s in conns && conns[s] == old(conns[s])
      ensures conns.Keys * desired.Keys == PoolAfter(old(conns.Keys) + Opened(during), desired, resolveKey)
      ensures forall s :: s in conns && s in desired && s !in old(conns) && s !in Opened(during) ==>
                conns[s].running && Some(conns[s].apiKey) == resolveKey(desired[s].secretRef, desired[s].namespace)
      ensures forall s :: s in conns && s !in old(conns) && s in Opened(during) ==>
                conns[s].running && s in FirstKeys(during) && conns[s].apiKey == FirstKeys(during)[s]
    {
      EnsureAll(during);
      OpenDesired(desired, resolveKey);
    }

    /** Discovery runs without the lock, so on-demand opens may come in between. */
    method ReconcileConns(turn: Turn) returns (desired: map<string, Coord>, ghost order: seq<string>)
      requires Valid() && started
      modifies this`conns, this`spawned, spawned
      ensures Valid() && old(spawned) <= spawned && fresh(spawned - old(spawned))
      ensures Lists(order, turn.kinds) && desired == Visit(order, turn.lister)
      ensures IsDiscovery(turn.kinds, turn.lister, desired)
      ensures conns.Keys == PoolAfter(old(conns.Keys) + Opened(turn.during), desired, turn.resolveKey)
      ensures forall s :: s in old(conns) && s in desired ==>
                s in conns && conns[s] == old(conns[s]) && conns[s].running == old(conns[s].running)
      ensures forall s :: s in old(conns) && s !in desired ==> !old(conns[s]).running
      ensures FoundInListings(turn.kinds, turn.lister, desired)
      ensures forall s :: s in conns && s !in old(conns) && s !in Opened(turn.during) ==>
                conns[s].running && KeyOfSomeItem(turn, s, conns[s].apiKey)
      ensures forall s :: s in conns && s !in old(conns) && s in Opened(turn.during) ==>
                conns[s].running && s in FirstKeys(turn.during) && conns[s].apiKey == FirstKeys(turn.during)[s]
    {
      hide IsDiscovery, FoundInListings, Visit, Lists, KeyOfSomeItem;
      desired, order := Discover(turn.kinds, turn.lister);
      OpenAll(turn.during, desired, turn.resolveKey);
      CloseAllBut(desired.Keys);
      forall s | s in conns && s !in old(conns) && s !in Opened(turn.during)
        ensures KeyOfSomeItem(turn, s, conns[s].apiKey)
      {
        ResolvedKeyIsOfAnItem(turn, desired, s, conns[s].apiKey);
      }
    }

    method Shutdown()
      requires Valid()
      modifies this`conns, spawned
      ensures Valid() && conns == map[] && spawned == old(spawned)
      ensures forall c :: c in spawned ==> !c.running
    {
      CloseAllBut({});
    }

    /** The context ends: some goroutines notice and leave by themselves, before the pool is told. */
    method ContextEnds(leavers: seq<string>)
      requires Valid()
      modifies spawned
      ensures Valid()
      ensures forall slug :: slug in leavers && slug in conns ==> !conns[slug].running
      ensures forall c :: c in spawned && !old(c.running) ==> !c.running
    {
      var i := 0;
      while i < |leavers|
        invariant i <= |leavers| && Valid()
        invariant forall slug :: slug in leavers[..i] && slug in conns ==> !conns[slug].running
        invariant forall c :: c in spawned && !old(c.running) ==> !c.running
      {
        assert leavers[..i + 1] == leavers[..i] + [leavers[i]];
        if leavers[i] in conns {
          GoroutineExits(conns[leavers[i]]);
        }
        i := i + 1;
      }
      assert leavers[..i] == leavers;
    }

    /** The whole life of the manager: a first tick, further ticks, and shutdown when the context ends. */
    method Start(turns: seq<Turn>, leavers: seq<string>)
      requires Valid()
      modifies this, spawned
      ensures Valid() && started && conns == map[]
      ensures old(spawned) <= spawned && forall c :: c in spawned ==> !c.running
    {
      started := true;
      var i := 0;
      while i < |turns|
        invariant Valid() && started
        invariant old(spawned) <= spawned && fresh(spawned - old(spawned))
      {
        var _, _ := ReconcileConns(turns[i]);
        EnsureAll(turns[i].after);
        i := i + 1;
      }
      ContextEnds(leavers);
      Shutdown();
    }
  }
}
