/** One map, many debouncers: the keys of lastEnqueue do not interfere, and distinct objects get
    distinct keys (shouldEnqueue and dispatch in internal/eventstream/eventstream.go). */
module DebounceKeys {
  import opened Prelude
  import opened Debounce

  /** The object an event is about. */
  datatype Target = Target(resourceType: string, orgSlug: string, namespace: string, name: string)

  function Key(t: Target): string {
    t.resourceType + "|" + t.orgSlug + "|" + t.namespace + "|" + t.name
  }

  /** Kubernetes names and the managed resource types have no bar; an org slug may have any. */
  predicate Plain(s: string) {
    '|' !in s
  }

  predicate PlainParts(t: Target) {
    Plain(t.resourceType) && Plain(t.namespace) && Plain(t.name)
  }

  lemma FirstBarSplits(a: string, x: string, b: string, y: string)
    requires Plain(a) && Plain(b) && a + "|" + x == b + "|" + y
    ensures a == b && x == y
  {
    var s := a + "|" + x;
    assert s[|a|] == '|' && s[|b|] == '|';
    assert forall k :: 0 <= k < |a| ==> s[k] == a[k];
    assert forall k :: 0 <= k < |b| ==> s[k] == b[k];
    assert |a| == |b|;
    assert s[..|a|] == a && s[..|b|] == b && s[|a| + 1..] == x && s[|b| + 1..] == y;
  }

  lemma LastBarSplits(x: string, a: string, y: string, b: string)
    requires Plain(a) && Plain(b) && x + "|" + a == y + "|" + b
    ensures a == b && x == y
  {
    var s := x + "|" + a;
    assert s[|x|] == '|' && s[|y|] == '|';
    assert forall k :: |x| < k < |s| ==> s[k] == a[k - |x| - 1];
    assert forall k :: |y| < k < |s| ==> s[k] == b[k - |y| - 1];
    assert |x| == |y|;
    assert s[..|x|] == x && s[..|y|] == y && s[|x| + 1..] == a && s[|y| + 1..] == b;
  }

  /** The joined key is injective even when org slugs contain bars. */
  lemma KeyIsInjective(t: Target, u: Target)
    requires PlainParts(t) && PlainParts(u) && Key(t) == Key(u)
    ensures t == u
  {
    var t2, u2 := t.orgSlug + "|" + t.namespace + "|" + t.name, u.orgSlug + "|" + u.namespace + "|" + u.name;
    assert Key(t) == t.resourceType + "|" + t2 && Key(u) == u.resourceType + "|" + u2;
    FirstBarSplits(t.resourceType, t2, u.resourceType, u2);
    LastBarSplits(t.orgSlug + "|" + t.namespace, t.name, u.orgSlug + "|" + u.namespace, u.name);
    LastBarSplits(t.orgSlug, t.namespace, u.orgSlug, u.namespace);
  }

  /** A bar in a namespace would break it. */
  lemma BarsInNamespacesCollide()
    ensures Key(Target("role", "a", "b|c", "d")) == Key(Target("role", "a|b", "c", "d"))
  {
  }

  // ---- the map of all keys ----

  function Lookup(entries: map<string, int>, key: string): Option<int> {
    if key in entries then Some(entries[key]) else None
  }

  function Record(entries: map<string, int>, key: string, t: Tick): map<string, int> {
    if Admissible(Lookup(entries, key), t) then entries[key := t.record] else entries
  }

  datatype Event = Event(target: Target, tick: Tick)

  function EntriesAfter(es: seq<Event>): map<string, int> {
    if es == [] then map[]
    else Record(EntriesAfter(es[..|es| - 1]), Key(es[|es| - 1].target), es[|es| - 1].tick)
  }

  /** What the shared map decides for an event. */
  predicate MapAdmits(es: seq<Event>, i: nat)
    requires i < |es|
  {
    Admissible(Lookup(EntriesAfter(es[..i]), Key(es[i].target)), es[i].tick)
  }

  /** The events of one object alone. */
  function TicksOf(es: seq<Event>, target: Target): seq<Tick> {
    if es == [] then []
    else
      var before := TicksOf(es[..|es| - 1], target);
      if es[|es| - 1].target == target then before + [es[|es| - 1].tick] else before
  }

  lemma {:induction false} EntryIsOwnLast(es: seq<Event>, target: Target)
    requires PlainParts(target) && forall e :: e in es ==> PlainParts(e.target)
    ensures Lookup(EntriesAfter(es), Key(target)) == LastOf(TicksOf(es, target))
  {
    if es != [] {
      var before, e := es[..|es| - 1], es[|es| - 1];
      EntryIsOwnLast(before, target);
      if e.target == target {
        assert TicksOf(es, target)[..|TicksOf(before, target)|] == TicksOf(before, target);
      } else if Key(e.target) == Key(target) {
        KeyIsInjective(e.target, target);
      }
    }
  }

  /** Independence: the shared map admits an event exactly when a debouncer that saw only the events
      of this one object would. */
  lemma OneDebouncerPerObject(es: seq<Event>, i: nat)
    requires i < |es| && forall e :: e in es ==> PlainParts(e.target)
    ensures var own := TicksOf(es[..i + 1], es[i].target);
            own != [] && own[|own| - 1] == es[i].tick && (MapAdmits(es, i) <==> Admits(own, |own| - 1))
  {
    var own := TicksOf(es[..i + 1], es[i].target);
    var before := TicksOf(es[..i], es[i].target);
    assert es[..i + 1][..i] == es[..i];
    EntryIsOwnLast(es[..i], es[i].target);
    assert own == before + [es[i].tick] && own[..|before|] == before;
  }
}
