/** Fan-out of one stream event to the CRs of its kind and org
    (Register, shouldEnqueue and dispatch in internal/eventstream/eventstream.go). */
module EventQueue {
  import opened Prelude
  import opened Debounce
  import opened DebounceKeys
  import opened Secrets

  const CHANNEL_CAPACITY: nat := 256

  /** One CR as a Lister reports it. */
  datatype Item = Item(namespace: string, name: string, orgSlug: string, secretRef: SecretRef)

  datatype Listing = ListFailed | Listed(items: seq<Item>)

  type Lister = string -> Listing

  /** What others do to the shared state: the controller takes events off the channel, and the
      connections of other orgs send to it and record admissions of their own objects. */
  datatype Op =
    | Take(n: nat)
    | RivalSend(item: Item)
    | RivalRecord(key: string, time: int)

  /** What one item of a dispatch meets: the clock, what others do before it is its turn, and what they
      do between its admission and its send, which no lock spans. */
  datatype Moment = Moment(tick: Tick, before: seq<Op>, between: seq<Op>)

  datatype Fate = OtherOrg | Collapsed | Sent | Dropped

  /** One event that went into the channel, from this dispatch or from another connection. */
  datatype Push = Push(item: Item, own: bool)

  /** The shared state of a dispatch, with everything received, everything sent, and the fate of every
      item so far. */
  datatype Flow = Flow(
    entries: map<string, int>, queue: seq<Item>, received: seq<Item>, pushed: seq<Push>, fates: seq<Fate>)

  function Begin(entries: map<string, int>, queue: seq<Item>): Flow {
    Flow(entries, queue, [], [], [])
  }

  function Pushed(f: Flow, item: Item, own: bool): Flow {
    f.(queue := f.queue + [item], pushed := f.pushed + [Push(item, own)])
  }

  function Disturb(f: Flow, op: Op): Flow {
    match op
    case Take(n) =>
      var k := if n <= |f.queue| then n else |f.queue|;
      f.(queue := f.queue[k..], received := f.received + f.queue[..k])
    case RivalSend(item) => if |f.queue| < CHANNEL_CAPACITY then Pushed(f, item, false) else f
    case RivalRecord(key, time) => f.(entries := f.entries[key := time])
  }

  function DisturbAll(f: Flow, ops: seq<Op>): Flow {
    if ops == [] then f else Disturb(DisturbAll(f, ops[..|ops| - 1]), ops[|ops| - 1])
  }

  function TargetOf(resourceType: string, item: Item): Target {
    Target(resourceType, item.orgSlug, item.namespace, item.name)
  }

  function Recorded(f: Flow, resourceType: string, item: Item, t: Tick): Flow {
    f.(entries := f.entries[Key(TargetOf(resourceType, item)) := t.record])
  }

  /** The state an item finds when it is sent, once it was admitted in state f. */
  function AtSend(f: Flow, resourceType: string, item: Item, m: Moment): Flow {
    DisturbAll(Recorded(f, resourceType, item, m.tick), m.between)
  }

  function Decided(f: Flow, fate: Fate): Flow {
    f.(fates := f.fates + [fate])
  }

  function Offer(f: Flow, resourceType: string, orgSlug: string, item: Item, m: Moment): Flow {
    var g := DisturbAll(f, m.before);
    if item.orgSlug != orgSlug then Decided(g, OtherOrg)
    else if !Admissible(Lookup(g.entries, Key(TargetOf(resourceType, item))), m.tick) then Decided(g, Collapsed)
    else
      var h := AtSend(g, resourceType, item, m);
      if |h.queue| < CHANNEL_CAPACITY then Decided(Pushed(h, item, true), Sent) else Decided(h, Dropped)
  }

  function Flows(f: Flow, resourceType: string, orgSlug: string, items: seq<Item>, moments: nat -> Moment): Flow {
    if items == [] then f
    else
      var n := |items| - 1;
      Offer(Flows(f, resourceType, orgSlug, items[..n], moments), resourceType, orgSlug, items[n], moments(n))
  }

  function ItemsOf(pushed: seq<Push>): seq<Item> {
    if pushed == [] then [] else ItemsOf(pushed[..|pushed| - 1]) + [pushed[|pushed| - 1].item]
  }

  function OwnOf(pushed: seq<Push>): seq<Item> {
    if pushed == [] then []
    else
      var own := OwnOf(pushed[..|pushed| - 1]);
      if pushed[|pushed| - 1].own then own + [pushed[|pushed| - 1].item] else own
  }

  /** The items of one fate, in list order. */
  function ItemsWith(items: seq<Item>, fates: seq<Fate>, fate: Fate): seq<Item>
    requires |items| == |fates|
  {
    if items == [] then []
    else
      var n := |items| - 1;
      var before := ItemsWith(items[..n], fates[..n], fate);
      if fates[n] == fate then before + [items[n]] else before
  }

  class Channel {
    var queue: seq<Item>

    constructor ()
      ensures queue == []
    {
      queue := [];
    }

    /** The select with a default branch: never blocks. */
    method TrySend(item: Item) returns (ok: bool)
      modifies this
      ensures ok == (|old(queue)| < 256)
      ensures queue == if ok then old(queue) + [item] else old(queue)
    {
      ok := |queue| < CHANNEL_CAPACITY;
      if ok {
        queue := queue + [item];
      }
    }

    method Take(n: nat) returns (items: seq<Item>)
      modifies this
      ensures items + queue == old(queue) && |items| == if n <= |old(queue)| then n else |old(queue)|
    {
      var k := if n <= |queue| then n else |queue|;
      items := queue[..k];
      queue := queue[k..];
    }
  }

  class Dispatcher {
    var regs: map<string, Channel>
    var lastEnqueue: map<string, int>

    constructor ()
      ensures regs == map[] && lastEnqueue == map[]
    {
      regs, lastEnqueue := map[], map[];
    }

    /** A kind registered twice gets a new channel. */
    method Register(resourceType: string) returns (ch: Channel)
      modifies this`regs
      ensures fresh(ch) && ch.queue == [] && regs == old(regs)[resourceType := ch]
    {
      ch := new Channel();
      regs := regs[resourceType := ch];
    }

    method ShouldEnqueue(key: string, now: Tick) returns (ok: bool)
      modifies this`lastEnqueue
      ensures ok == Admissible(Lookup(old(lastEnqueue), key), now)
      ensures ok <==> key !in old(lastEnqueue) || now.check - old(lastEnqueue)[key] >= 2_000_000_000
      ensures lastEnqueue == if ok then old(lastEnqueue)[key := now.record] else old(lastEnqueue)
    {
      if key in lastEnqueue {
        var last := lastEnqueue[key];
        if now.check - last < ENQUEUE_DEBOUNCE {
          return false;
        }
      }
      lastEnqueue := lastEnqueue[key := now.record];
      ok := true;
    }

    /** What others do meanwhile, seen from a dispatch in state f. */
    method Meanwhile(ch: Channel, ops: seq<Op>, ghost f: Flow) returns (received: seq<Item>)
      requires ch.queue == f.queue && lastEnqueue == f.entries
      modifies this`lastEnqueue, ch
      ensures var g := DisturbAll(f, ops);
              ch.queue == g.queue && lastEnqueue == g.entries && f.received + received == g.received
    {
      received := [];
      var i := 0;
      while i < |ops|
        invariant i <= |ops|
        invariant var g := DisturbAll(f, ops[..i]);
                  ch.queue == g.queue && lastEnqueue == g.entries && f.received + received == g.received
      {
        assert ops[..i + 1][..i] == ops[..i];
        match ops[i] {
          case Take(n) =>
            var taken := ch.Take(n);
            received := received + taken;
          case RivalSend(item) =>
            var _ := ch.TrySend(item);
          case RivalRecord(key, time) =>
            lastEnqueue := lastEnqueue[key := time];
        }
        i := i + 1;
      }
      assert ops[..i] == ops;
    }

    /** One turn of the loop; `n` counts the events it sends. */
    method OfferItem(ch: Channel, orgSlug: string, resourceType: string, item: Item, m: Moment, ghost f: Flow)
      returns (received: seq<Item>, n: nat)
      requires ch.queue == f.queue && lastEnqueue == f.entries
      modifies this`lastEnqueue, ch
      ensures var g := Offer(f, resourceType, orgSlug, item, m);
              && ch.queue == g.queue && lastEnqueue == g.entries && f.received + received == g.received
              && n == if g.fates[|g.fates| - 1] == Sent then 1 else 0
    {
      hide DisturbAll;
      n := 0;
      received := Meanwhile(ch, m.before, f);
      if item.orgSlug != orgSlug {
        return;
      }
      ghost var g := DisturbAll(f, m.before);
      var key := resourceType + "|" + orgSlug + "|" + item.namespace + "|" + item.name;
      var ok := ShouldEnqueue(key, m.tick);
      if !ok {
        return;
      }
      var more := Meanwhile(ch, m.between, g.(entries := lastEnqueue));
      received := received + more;
      var sent := ch.TrySend(item);
      if sent {
        n := 1;
      }
    }

    /** Reports what the controller took off the channel meanwhile and how many events were sent. An
        unregistered kind or a failed listing changes nothing. */
    method Dispatch(orgSlug: string, resourceType: string, lister: Lister, moments: nat -> Moment)
      returns (received: seq<Item>, n: nat)
      modifies this`lastEnqueue, if resourceType in regs then {regs[resourceType]} else {}
      ensures resourceType !in regs || lister(resourceType).ListFailed? ==>
                lastEnqueue == old(lastEnqueue) && received == [] && n == 0
                && (resourceType in regs ==> regs[resourceType].queue == old(regs[resourceType].queue))
      ensures resourceType in regs && lister(resourceType).Listed? ==>
                var items := lister(resourceType).items;
                var f := Flows(Begin(old(lastEnqueue), old(regs[resourceType].queue)), resourceType, orgSlug,
                               items, moments);
                && lastEnqueue == f.entries && regs[resourceType].queue == f.queue && received == f.received
                && |f.fates| == |items| && n == |ItemsWith(items, f.fates, Sent)|
    {
      received, n := [], 0;
      if resourceType !in regs {
        return;
      }
      var ch := regs[resourceType];
      var listing := lister(resourceType);
      if listing.ListFailed? {
        return;
      }
      var items := listing.items;
      ghost var start := Begin(lastEnqueue, ch.queue);
      ghost var f := start;
      var i := 0;
      while i < |items|
        invariant i <= |items| && regs == old(regs)
        invariant f == Flows(start, resourceType, orgSlug, items[..i], moments)
        invariant lastEnqueue == f.entries && ch.queue == f.queue && received == f.received
        invariant |f.fates| == i && n == |ItemsWith(items[..i], f.fates, Sent)|
      {
        OneMoreOffer(start, resourceType, orgSlug, items, moments, i);
        var taken, sent := OfferItem(ch, orgSlug, resourceType, items[i], moments(i), f);
        f := Offer(f, resourceType, orgSlug, items[i], moments(i));
        received, n, i := received + taken, n + sent, i + 1;
      }
      assert items[..i] == items;
    }
  }

  lemma {:induction false} DisturbingDecidesNothing(f: Flow, ops: seq<Op>)
    ensures DisturbAll(f, ops).fates == f.fates
    ensures OwnOf(DisturbAll(f, ops).pushed) == OwnOf(f.pushed)
  {
    if ops != [] {
      var n := |ops| - 1;
      DisturbingDecidesNothing(f, ops[..n]);
      var g := DisturbAll(f, ops[..n]);
      if ops[n].RivalSend? {
        assert (g.pushed + [Push(ops[n].item, false)])[..|g.pushed|] == g.pushed;
      }
    }
  }

  /** Each turn decides one fate and leaves the earlier ones alone. */
  lemma OfferDecidesOne(f: Flow, resourceType: string, orgSlug: string, item: Item, m: Moment)
    ensures var g := Offer(f, resourceType, orgSlug, item, m);
            && |g.fates| == |f.fates| + 1 && g.fates[..|f.fates|] == f.fates
            && OwnOf(g.pushed) == OwnOf(f.pushed) + (if g.fates[|f.fates|] == Sent then [item] else [])
  {
    var g := DisturbAll(f, m.before);
    DisturbingDecidesNothing(f, m.before);
    DisturbingDecidesNothing(Recorded(g, resourceType, item, m.tick), m.between);
    var h := AtSend(g, resourceType, item, m);
    assert (h.pushed + [Push(item, true)])[..|h.pushed|] == h.pushed;
  }

  lemma OneMoreOffer(f: Flow, resourceType: string, orgSlug: string, items: seq<Item>, moments: nat -> Moment, i: nat)
    requires i < |items| && |Flows(f, resourceType, orgSlug, items[..i], moments).fates| == i
    ensures var g := Flows(f, resourceType, orgSlug, items[..i], moments);
            var g' := Offer(g, resourceType, orgSlug, items[i], moments(i));
            && Flows(f, resourceType, orgSlug, items[..i + 1], moments) == g'
            && |g'.fates| == i + 1
            && ItemsWith(items[..i + 1], g'.fates, Sent) ==
               ItemsWith(items[..i], g.fates, Sent) + (if g'.fates[i] == Sent then [items[i]] else [])
  {
    var g := Flows(f, resourceType, orgSlug, items[..i], moments);
    OfferDecidesOne(g, resourceType, orgSlug, items[i], moments(i));
    assert items[..i + 1][..i] == items[..i];
  }

  // ---- accounting ----

  predicate Accounted(queue: seq<Item>, f: Flow) {
    |f.queue| <= CHANNEL_CAPACITY && f.received + f.queue == queue + ItemsOf(f.pushed)
  }

  lemma PushIsAccounted(queue: seq<Item>, f: Flow, item: Item, own: bool)
    requires Accounted(queue, f) && |f.queue| < CHANNEL_CAPACITY
    ensures Accounted(queue, Pushed(f, item, own))
  {
    var g := Pushed(f, item, own);
    assert g.pushed[..|f.pushed|] == f.pushed;
    assert g.received + g.queue == f.received + f.queue + [item] == queue + ItemsOf(f.pushed) + [item];
  }

  lemma {:induction false} DisturbingIsAccounted(queue: seq<Item>, f: Flow, ops: seq<Op>)
    requires Accounted(queue, f)
    ensures Accounted(queue, DisturbAll(f, ops))
  {
    if ops != [] {
      var n := |ops| - 1;
      DisturbingIsAccounted(queue, f, ops[..n]);
      var g := DisturbAll(f, ops[..n]);
      match ops[n]
      case Take(k) =>
        var h := Disturb(g, ops[n]);
        assert h.received + h.queue == g.received + g.queue;
      case RivalSend(item) =>
        if |g.queue| < CHANNEL_CAPACITY {
          PushIsAccounted(queue, g, item, false);
        }
      case RivalRecord(_, _) =>
    }
  }

  lemma OfferIsAccounted(queue: seq<Item>, f: Flow, resourceType: string, orgSlug: string, item: Item, m: Moment)
    requires Accounted(queue, f)
    ensures Accounted(queue, Offer(f, resourceType, orgSlug, item, m))
  {
    var g := DisturbAll(f, m.before);
    DisturbingIsAccounted(queue, f, m.before);
    DisturbingIsAccounted(queue, Recorded(g, resourceType, item, m.tick), m.between);
    var h := AtSend(g, resourceType, item, m);
    if |h.queue| < CHANNEL_CAPACITY {
      PushIsAccounted(queue, h, item, true);
    }
  }

  /** Whatever the controller and the connections of other orgs do meanwhile: the channel stays within
      its bound, what comes out of it is what went in, in that order, and among what went in this
      dispatch's own events are exactly its items of fate Sent, in list order and each once. */
  lemma {:induction false} DispatchAccountsForEveryEvent(f: Flow, resourceType: string, orgSlug: string,
                                                         items: seq<Item>, moments: nat -> Moment)
    requires f == Begin(f.entries, f.queue) && |f.queue| <= CHANNEL_CAPACITY
    ensures var g := Flows(f, resourceType, orgSlug, items, moments);
            && Accounted(f.queue, g)
            && |g.fates| == |items| && OwnOf(g.pushed) == ItemsWith(items, g.fates, Sent)
  {
    if items != [] {
      var n := |items| - 1;
      DispatchAccountsForEveryEvent(f, resourceType, orgSlug, items[..n], moments);
      assert items[..n + 1] == items;
      OneMoreOffer(f, resourceType, orgSlug, items, moments, n);
      var before := Flows(f, resourceType, orgSlug, items[..n], moments);
      OfferDecidesOne(before, resourceType, orgSlug, items[n], moments(n));
      OfferIsAccounted(f.queue, before, resourceType, orgSlug, items[n], moments(n));
    }
  }

  /** The state item i finds when it is its turn. */
  function AtTurn(f: Flow, resourceType: string, orgSlug: string, items: seq<Item>, moments: nat -> Moment,
                  i: nat): Flow
    requires i < |items|
  {
    DisturbAll(Flows(f, resourceType, orgSlug, items[..i], moments), moments(i).before)
  }

  /** The fate of every item: an item is dropped if and only if it belongs to the event's org, its object
      is outside its window at its turn, and the channel is full at the moment it is sent. */
  lemma {:induction false} DispatchDecidesExactly(f: Flow, resourceType: string, orgSlug: string, items: seq<Item>,
                                                  moments: nat -> Moment, i: nat)
    requires f == Begin(f.entries, f.queue) && |f.queue| <= CHANNEL_CAPACITY && i < |items|
    ensures var fates := Flows(f, resourceType, orgSlug, items, moments).fates;
            var turn := AtTurn(f, resourceType, orgSlug, items, moments, i);
            var key := resourceType + "|" + orgSlug + "|" + items[i].namespace + "|" + items[i].name;
            var admissible := key !in turn.entries || moments(i).tick.check - turn.entries[key] >= 2_000_000_000;
            var full := |AtSend(turn, resourceType, items[i], moments(i)).queue| == 256;
            && |fates| == |items|
            && (fates[i] == OtherOrg <==> items[i].orgSlug != orgSlug)
            && (fates[i] == Collapsed <==> items[i].orgSlug == orgSlug && !admissible)
            && (fates[i] == Sent <==> items[i].orgSlug == orgSlug && admissible && !full)
            && (fates[i] == Dropped <==> items[i].orgSlug == orgSlug && admissible && full)
    decreases |items|
  {
    hide ItemsWith, OwnOf, ItemsOf;
    var n := |items| - 1;
    DispatchAccountsForEveryEvent(f, resourceType, orgSlug, items, moments);
    var before := Flows(f, resourceType, orgSlug, items[..n], moments);
    DispatchAccountsForEveryEvent(f, resourceType, orgSlug, items[..n], moments);
    OfferDecidesOne(before, resourceType, orgSlug, items[n], moments(n));
    if i < n {
      DispatchDecidesExactly(f, resourceType, orgSlug, items[..n], moments, i);
      assert items[..n][..i] == items[..i];
    } else {
      SendFindsABoundedChannel(f.queue, before, resourceType, items[n], moments(n));
      LastFate(before, resourceType, orgSlug, items[n], moments(n));
    }
  }

  lemma SendFindsABoundedChannel(queue: seq<Item>, f: Flow, resourceType: string, item: Item, m: Moment)
    requires Accounted(queue, f)
    ensures |AtSend(DisturbAll(f, m.before), resourceType, item, m).queue| <= CHANNEL_CAPACITY
  {
    var g := DisturbAll(f, m.before);
    DisturbingIsAccounted(queue, f, m.before);
    DisturbingIsAccounted(queue, Recorded(g, resourceType, item, m.tick), m.between);
  }

  lemma LastFate(f: Flow, resourceType: string, orgSlug: string, item: Item, m: Moment)
    ensures var g := DisturbAll(f, m.before);
            var fates := Offer(f, resourceType, orgSlug, item, m).fates;
            |fates| == |f.fates| + 1 &&
            fates[|f.fates|] ==
              if item.orgSlug != orgSlug then OtherOrg
              else if !Admissible(Lookup(g.entries, Key(TargetOf(resourceType, item))), m.tick) then Collapsed
              else if |AtSend(g, resourceType, item, m).queue| < CHANNEL_CAPACITY then Sent else Dropped
  {
    OfferDecidesOne(f, resourceType, orgSlug, item, m);
    var g := DisturbAll(f, m.before);
    DisturbingDecidesNothing(f, m.before);
    DisturbingDecidesNothing(Recorded(g, resourceType, item, m.tick), m.between);
  }

  // ---- different objects do not interfere ----

  /** Everything else that happens leaves this object's map entry alone: other connections serve other
      orgs, and this one's other items are other objects. */
  predicate Elsewhere(ops: seq<Op>, key: string) {
    forall op :: op in ops && op.RivalRecord? ==> op.key != key
  }

  lemma {:induction false} ElsewhereKeepsTheEntry(f: Flow, ops: seq<Op>, key: string)
    requires Elsewhere(ops, key)
    ensures Lookup(DisturbAll(f, ops).entries, key) == Lookup(f.entries, key)
  {
    if ops != [] {
      var n := |ops| - 1;
      ElsewhereKeepsTheEntry(f, ops[..n], key);
      assert ops[n] in ops;
    }
  }

  /** Admitting one CR leaves the entry that is consulted for another one of the org as it was. */
  lemma OthersKeepTheirWindow(f: Flow, resourceType: string, orgSlug: string, a: Item, b: Item, m: Moment)
    requires PlainParts(TargetOf(resourceType, a)) && PlainParts(TargetOf(resourceType, b))
    requires a.namespace != b.namespace || a.name != b.name
    requires var key := resourceType + "|" + b.orgSlug + "|" + b.namespace + "|" + b.name;
             Elsewhere(m.before, key) && Elsewhere(m.between, key)
    ensures var key := resourceType + "|" + b.orgSlug + "|" + b.namespace + "|" + b.name;
            Lookup(Offer(f, resourceType, orgSlug, a, m).entries, key) == Lookup(f.entries, key)
  {
    var key := Key(TargetOf(resourceType, b));
    var g := DisturbAll(f, m.before);
    ElsewhereKeepsTheEntry(f, m.before, key);
    ElsewhereKeepsTheEntry(Recorded(g, resourceType, a, m.tick), m.between, key);
    if Key(TargetOf(resourceType, a)) == key {
      KeyIsInjective(TargetOf(resourceType, a), TargetOf(resourceType, b));
    }
  }

  /** Nothing is done by others during a dispatch. */
  ghost predicate Undisturbed(moments: nat -> Moment) {
    forall i :: moments(i).before == [] && moments(i).between == []
  }

  lemma QuietOffer(f: Flow, resourceType: string, orgSlug: string, item: Item, m: Moment)
    requires m.before == [] && m.between == [] && |f.queue| < 256
    requires item.orgSlug == orgSlug ==> Lookup(f.entries, Key(TargetOf(resourceType, item))) == None
    ensures var g := Offer(f, resourceType, orgSlug, item, m);
            && g.fates == f.fates + [if item.orgSlug == orgSlug then Sent else OtherOrg]
            && |g.queue| <= |f.queue| + 1
            && (item.orgSlug != orgSlug ==> g.entries == f.entries)
  {
  }

  lemma QuietOfferKeepsOthers(f: Flow, resourceType: string, orgSlug: string, a: Item, b: Item, m: Moment)
    requires m.before == [] && m.between == [] && b.orgSlug == orgSlug
    requires PlainParts(TargetOf(resourceType, a)) && PlainParts(TargetOf(resourceType, b))
    requires a.orgSlug == orgSlug ==> a.namespace != b.namespace || a.name != b.name
    ensures Lookup(Offer(f, resourceType, orgSlug, a, m).entries, Key(TargetOf(resourceType, b))) ==
            Lookup(f.entries, Key(TargetOf(resourceType, b)))
  {
    if a.orgSlug == orgSlug {
      OthersKeepTheirWindow(f, resourceType, orgSlug, a, b, m);
    }
  }

  lemma QuietFates(before: Flow, after: Flow, orgSlug: string, items: seq<Item>, n: nat)
    requires 0 < n <= |items| && |before.fates| == n - 1
    requires after.fates == before.fates + [if items[n - 1].orgSlug == orgSlug then Sent else OtherOrg]
    requires forall i :: 0 <= i < n - 1 ==> before.fates[i] == if items[i].orgSlug == orgSlug then Sent else OtherOrg
    ensures forall i :: 0 <= i < n ==> after.fates[i] == if items[i].orgSlug == orgSlug then Sent else OtherOrg
  {
  }

  /** In one dispatch, with nothing done by others and room for all, every CR of the event's org that is
      outside its window is sent, however close together they are handled: distinct CRs have windows of
      their own. */
  lemma {:induction false} DistinctObjectsAreAllSent(f: Flow, resourceType: string, orgSlug: string, items: seq<Item>,
                                                     moments: nat -> Moment, n: nat)
    requires f == Begin(f.entries, f.queue) && n <= |items| && |f.queue| + |items| <= 256 && Undisturbed(moments)
    requires forall i :: 0 <= i < |items| ==> PlainParts(TargetOf(resourceType, items[i]))
    requires forall i, j :: 0 <= i < j < |items| && items[i].orgSlug == items[j].orgSlug == orgSlug ==>
               items[i].namespace != items[j].namespace || items[i].name != items[j].name
    requires forall i :: 0 <= i < |items| && items[i].orgSlug == orgSlug ==>
               resourceType + "|" + orgSlug + "|" + items[i].namespace + "|" + items[i].name !in f.entries
    ensures var g := Flows(f, resourceType, orgSlug, items[..n], moments);
            && |g.fates| == n && |g.queue| <= |f.queue| + n
            && (forall i :: 0 <= i < n ==> g.fates[i] == if items[i].orgSlug == orgSlug then Sent else OtherOrg)
            && (forall i :: n <= i < |items| && items[i].orgSlug == orgSlug ==>
                  Lookup(g.entries, Key(TargetOf(resourceType, items[i]))) == None)
  {
    if n > 0 {
      DistinctObjectsAreAllSent(f, resourceType, orgSlug, items, moments, n - 1);
      var before := Flows(f, resourceType, orgSlug, items[..n - 1], moments);
      var item, m := items[n - 1], moments(n - 1);
      assert items[..n][..n - 1] == items[..n - 1];
      QuietOffer(before, resourceType, orgSlug, item, m);
      hide Flows, Offer, Lookup, Key, TargetOf, PlainParts;
      forall i | n <= i < |items| && items[i].orgSlug == orgSlug
        ensures Lookup(Offer(before, resourceType, orgSlug, item, m).entries,
                       Key(TargetOf(resourceType, items[i]))) == None
      {
        QuietOfferKeepsOthers(before, resourceType, orgSlug, item, items[i], m);
      }
      QuietFates(before, Offer(before, resourceType, orgSlug, item, m), orgSlug, items, n);
    }
  }

  // ---- one object over a whole history ----

  predicate AllElsewhere(ms: seq<Moment>, key: string) {
    forall m :: m in ms ==> Elsewhere(m.before, key) && Elsewhere(m.between, key)
  }

  /** All events about one object, with everything that happens around them. */
  function Encounters(f: Flow, resourceType: string, item: Item, ms: seq<Moment>): Flow {
    if ms == [] then f
    else
      var n := |ms| - 1;
      Offer(Encounters(f, resourceType, item, ms[..n]), resourceType, item.orgSlug, item, ms[n])
  }

  function Ticks(ms: seq<Moment>): (ts: seq<Tick>)
    ensures |ts| == |ms| && forall i :: 0 <= i < |ms| ==> ts[i] == ms[i].tick
  {
    if ms == [] then [] else Ticks(ms[..|ms| - 1]) + [ms[|ms| - 1].tick]
  }

  /** An admitted event takes its object's window, whether it is then sent or dropped. */
  lemma DroppedEventsTakeTheirWindow(f: Flow, resourceType: string, item: Item, m: Moment)
    requires Elsewhere(m.before, Key(TargetOf(resourceType, item)))
    requires Elsewhere(m.between, Key(TargetOf(resourceType, item)))
    ensures var key := Key(TargetOf(resourceType, item));
            var g := Offer(f, resourceType, item.orgSlug, item, m);
            && |g.fates| == |f.fates| + 1 && g.fates[..|f.fates|] == f.fates && g.fates[|f.fates|] != OtherOrg
            && (g.fates[|f.fates|] == Collapsed <==> !Admissible(Lookup(f.entries, key), m.tick))
            && Lookup(g.entries, key) ==
               if Admissible(Lookup(f.entries, key), m.tick) then Some(m.tick.record) else Lookup(f.entries, key)
  {
    var key := Key(TargetOf(resourceType, item));
    var g := DisturbAll(f, m.before);
    ElsewhereKeepsTheEntry(f, m.before, key);
    ElsewhereKeepsTheEntry(Recorded(g, resourceType, item, m.tick), m.between, key);
    LastFate(f, resourceType, item.orgSlug, item, m);
    OfferDecidesOne(f, resourceType, item.orgSlug, item, m);
  }

  lemma OneMoreTick(ms: seq<Moment>)
    requires ms != []
    ensures var n := |ms| - 1;
            var before := LastOf(Ticks(ms[..n]));
            && (Admits(Ticks(ms), n) <==> Admissible(before, ms[n].tick))
            && LastOf(Ticks(ms)) == (if Admissible(before, ms[n].tick) then Some(ms[n].tick.record) else before)
            && forall i :: 0 <= i < n ==> (Admits(Ticks(ms), i) <==> Admits(Ticks(ms[..n]), i))
  {
    var n := |ms| - 1;
    var ts := Ticks(ms);
    assert ts[..n] == Ticks(ms[..n]);
    forall i | 0 <= i < n ensures Admits(ts, i) <==> Admits(ts[..n], i) {
      assert ts[..i] == ts[..n][..i];
    }
  }

  /** The debounce alone decides which events of the object are collapsed. */
  predicate FollowsTheDebounce(g: Flow, key: string, ms: seq<Moment>) {
    && |g.fates| == |ms| && Lookup(g.entries, key) == LastOf(Ticks(ms))
    && (forall i :: 0 <= i < |ms| ==> g.fates[i] != OtherOrg && (g.fates[i] == Collapsed <==> !Admits(Ticks(ms), i)))
  }

  lemma {:induction false} HistoryFollowsTheDebounce(f: Flow, resourceType: string, item: Item, ms: seq<Moment>)
    requires f.fates == [] && Key(TargetOf(resourceType, item)) !in f.entries
    requires AllElsewhere(ms, Key(TargetOf(resourceType, item)))
    ensures FollowsTheDebounce(Encounters(f, resourceType, item, ms), Key(TargetOf(resourceType, item)), ms)
  {
    if ms != [] {
      var n := |ms| - 1;
      HistoryFollowsTheDebounce(f, resourceType, item, ms[..n]);
      assert ms[n] in ms;
      var before := Encounters(f, resourceType, item, ms[..n]);
      DroppedEventsTakeTheirWindow(before, resourceType, item, ms[n]);
      OneMoreFollows(before, Encounters(f, resourceType, item, ms), Key(TargetOf(resourceType, item)), ms);
    }
  }

  lemma OneMoreFollows(before: Flow, after: Flow, key: string, ms: seq<Moment>)
    requires ms != [] && FollowsTheDebounce(before, key, ms[..|ms| - 1])
    requires |after.fates| == |ms| && after.fates[..|ms| - 1] == before.fates && after.fates[|ms| - 1] != OtherOrg
    requires var admissible := Admissible(Lookup(before.entries, key), ms[|ms| - 1].tick);
             && (after.fates[|ms| - 1] == Collapsed <==> !admissible)
             && Lookup(after.entries, key) ==
                if admissible then Some(ms[|ms| - 1].tick.record) else Lookup(before.entries, key)
    ensures FollowsTheDebounce(after, key, ms)
  {
    OneMoreTick(ms);
    hide Admits, LastOf, Admissible, Lookup, Ticks;
    var n := |ms| - 1;
    forall i | 0 <= i < n
      ensures after.fates[i] != OtherOrg && (after.fates[i] == Collapsed <==> !Admits(Ticks(ms), i))
    {
      assert after.fates[i] == before.fates[i];
    }
  }

  /** Event i of an object was sent, or one that was sent less than a window before covers it. */
  predicate Covered(fates: seq<Fate>, ts: seq<Tick>, i: nat)
    requires i < |fates| == |ts|
  {
    fates[i] == Sent || exists j :: 0 <= j < i && fates[j] == Sent && ts[i].check - ts[j].record < ENQUEUE_DEBOUNCE
  }

  lemma CoveredIsServed(fates: seq<Fate>, ts: seq<Tick>, room: seq<bool>)
    requires |fates| == |ts| == |room|
    requires forall i :: 0 <= i < |ts| ==> fates[i] != OtherOrg && (fates[i] == Collapsed <==> !Admits(ts, i))
    requires forall i :: 0 <= i < |ts| ==> room[i] == (fates[i] != Dropped)
    ensures forall i :: 0 <= i < |ts| ==> (Covered(fates, ts, i) <==> Served(ts, room, i))
  {
    hide Admits;
    forall j | 0 <= j < |ts| ensures fates[j] == Sent <==> Debounce.Sent(ts, room, j) {
    }
  }

  /** Collapsing and dropping lose no event of an object, whatever happens around it, if and only if none
      of its events was dropped. */
  lemma NothingIsLostUnlessDropped(f: Flow, resourceType: string, item: Item, ms: seq<Moment>)
    requires f.fates == [] && Key(TargetOf(resourceType, item)) !in f.entries
    requires AllElsewhere(ms, Key(TargetOf(resourceType, item))) && Ordered(Ticks(ms))
    ensures var fates := Encounters(f, resourceType, item, ms).fates;
            && |fates| == |ms|
            && ((forall i :: 0 <= i < |ms| ==> Covered(fates, Ticks(ms), i)) <==> Dropped !in fates)
  {
    hide Encounters, Ticks, Admits, Ordered, Lookup, LastOf, AllElsewhere;
    var ts := Ticks(ms);
    HistoryFollowsTheDebounce(f, resourceType, item, ms);
    var fates := Encounters(f, resourceType, item, ms).fates;
    var room := seq(|fates|, i requires 0 <= i < |fates| => fates[i] != Dropped);
    NothingIsLostExactly(ts, room);
    CoveredIsServed(fates, ts, room);
    assert Dropped !in fates <==> forall i :: 0 <= i < |ms| && Admits(ts, i) ==> room[i];
  }
}
