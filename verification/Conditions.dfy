/** Status conditions and their upsert (setCondition in internal/controller/clavexclient_controller.go;
    every other controller carries the same body). */
module Conditions {
  import opened Prelude

  datatype ConditionStatus = StatusTrue | StatusFalse | StatusUnknown

  datatype Condition = Condition(
    kind: string, status: ConditionStatus, reason: string, message: string,
    observedGeneration: nat, lastTransition: int)

  /** The arguments of one setCondition call, with the CR's generation and the clock it reads. */
  datatype Call = Call(
    kind: string, status: ConditionStatus, reason: string, message: string,
    generation: nat, now: int)

  function Entry(c: Call, lastTransition: int): Condition {
    Condition(c.kind, c.status, c.reason, c.message, c.generation, lastTransition)
  }

  function Find(cs: seq<Condition>, kind: string): (r: Option<Condition>)
    ensures r.Some? ==> r.value in cs && r.value.kind == kind
    ensures r.None? <==> kind !in Kinds(cs)
  {
    if cs == [] then None
    else if cs[0].kind == kind then Some(cs[0])
    else Find(cs[1..], kind)
  }

  function Kinds(cs: seq<Condition>): seq<string> {
    if cs == [] then [] else [cs[0].kind] + Kinds(cs[1..])
  }

  /** What the upsert makes of the previous entry of the call's kind: the timestamp survives
      exactly when the status does. */
  function Refresh(c: Call, previous: Option<Condition>): Condition {
    Entry(c, if previous.Some? && previous.value.status == c.status
             then previous.value.lastTransition else c.now)
  }

  function Upsert(cs: seq<Condition>, c: Call): seq<Condition> {
    if cs == [] then [Refresh(c, None)]
    else if cs[0].kind == c.kind then [Refresh(c, Some(cs[0]))] + cs[1..]
    else [cs[0]] + Upsert(cs[1..], c)
  }

  class StatusBlock {
    var conditions: seq<Condition>

    method SetCondition(c: Call)
      modifies this
      ensures conditions == Upsert(old(conditions), c)
    {
      var newCond := Entry(c, c.now);
      var i := 0;
      while i < |conditions|
        invariant i <= |conditions| && conditions == old(conditions)
        invariant forall k :: 0 <= k < i ==> conditions[k].kind != c.kind
      {
        var existing := conditions[i];
        if existing.kind == c.kind {
          if existing.status == c.status {
            newCond := newCond.(lastTransition := existing.lastTransition);
          }
          UpsertPassesOver(conditions[..i], conditions[i..], c);
          assert conditions == conditions[..i] + conditions[i..];
          conditions := conditions[i := newCond];
          return;
        }
        i := i + 1;
      }
      UpsertPassesOver(conditions, [], c);
      assert conditions + [] == conditions;
      conditions := conditions + [newCond];
    }
  }

  lemma {:induction false} UpsertPassesOver(before: seq<Condition>, rest: seq<Condition>, c: Call)
    requires forall k :: 0 <= k < |before| ==> before[k].kind != c.kind
    ensures Upsert(before + rest, c) == before + Upsert(rest, c)
  {
    if before == [] {
      assert before + rest == rest;
    } else {
      UpsertPassesOver(before[1..], rest, c);
      assert (before + rest)[1..] == before[1..] + rest;
      assert before + Upsert(rest, c) == [before[0]] + (before[1..] + Upsert(rest, c));
    }
  }

  /** Upsert acts on its own kind only. */
  lemma {:induction false} UpsertActsOnOneKind(cs: seq<Condition>, c: Call, kind: string)
    ensures Find(Upsert(cs, c), kind) ==
            if kind == c.kind then Some(Refresh(c, Find(cs, kind))) else Find(cs, kind)
  {
    if cs != [] {
      if cs[0].kind == c.kind {
        assert Upsert(cs, c)[1..] == cs[1..];
      } else {
        assert Upsert(cs, c)[1..] == Upsert(cs[1..], c);
        UpsertActsOnOneKind(cs[1..], c, kind);
      }
    }
  }

  /** Upsert keeps every entry in its place and appends a kind only when it is new. */
  lemma {:induction false} UpsertKeepsOrder(cs: seq<Condition>, c: Call)
    ensures Kinds(Upsert(cs, c)) == if c.kind in Kinds(cs) then Kinds(cs) else Kinds(cs) + [c.kind]
  {
    if cs != [] {
      if cs[0].kind == c.kind {
        assert Upsert(cs, c)[1..] == cs[1..];
      } else {
        assert Upsert(cs, c)[1..] == Upsert(cs[1..], c);
        UpsertKeepsOrder(cs[1..], c);
      }
    }
  }

  /** The condition slice after a whole history of calls. */
  function Replay(calls: seq<Call>): seq<Condition> {
    if calls == [] then [] else Upsert(Replay(calls[..|calls| - 1]), calls[|calls| - 1])
  }

  function OfKind(calls: seq<Call>, kind: string): seq<Call> {
    if calls == [] then []
    else
      var before := OfKind(calls[..|calls| - 1], kind);
      if calls[|calls| - 1].kind == kind then before + [calls[|calls| - 1]] else before
  }

  function FirstSeen(calls: seq<Call>): seq<string> {
    if calls == [] then []
    else
      var before := FirstSeen(calls[..|calls| - 1]);
      if calls[|calls| - 1].kind in before then before else before + [calls[|calls| - 1].kind]
  }

  predicate Distinct(s: seq<string>) {
    forall i, j :: 0 <= i < j < |s| ==> s[i] != s[j]
  }

  /** calls[start..] is the longest final run of calls that carry one status. */
  predicate IsFinalRun(calls: seq<Call>, start: nat) {
    && start < |calls|
    && (forall i :: start <= i < |calls| ==> calls[i].status == calls[|calls| - 1].status)
    && (start > 0 ==> calls[start - 1].status != calls[|calls| - 1].status)
  }

  lemma {:induction false} ReplayListsKindsAsFirstSeen(calls: seq<Call>)
    ensures Kinds(Replay(calls)) == FirstSeen(calls) && Distinct(FirstSeen(calls))
  {
    if calls != [] {
      var before, c := calls[..|calls| - 1], calls[|calls| - 1];
      ReplayListsKindsAsFirstSeen(before);
      UpsertKeepsOrder(Replay(before), c);
    }
  }

  lemma OneMoreCall(calls: seq<Call>, kind: string)
    requires calls != []
    ensures var before, c := calls[..|calls| - 1], calls[|calls| - 1];
            && OfKind(calls, kind) == OfKind(before, kind) + (if c.kind == kind then [c] else [])
            && Find(Replay(calls), kind) ==
               if c.kind == kind then Some(Refresh(c, Find(Replay(before), kind))) else Find(Replay(before), kind)
  {
    UpsertActsOnOneKind(Replay(calls[..|calls| - 1]), calls[|calls| - 1], kind);
  }

  /** A kind that was never set has no entry; one that was holds its last call's fields, and the time
      of the call at `start`, the first in its longest final run of one status. */
  predicate RemembersFinalRun(entry: Option<Condition>, own: seq<Call>, start: nat) {
    if own == [] then entry == None
    else
      var last := own[|own| - 1];
      && IsFinalRun(own, start) && entry.Some?
      && entry.value.kind == last.kind && entry.value.status == last.status
      && entry.value.reason == last.reason && entry.value.message == last.message
      && entry.value.observedGeneration == last.generation
      && entry.value.lastTransition == own[start].now
  }

  /** After any history of calls, every kind remembers the final run of its own calls. */
  lemma {:induction false} ReplayRemembersTheFinalRun(calls: seq<Call>, kind: string) returns (start: nat)
    ensures RemembersFinalRun(Find(Replay(calls), kind), OfKind(calls, kind), start)
  {
    start := 0;
    if calls != [] {
      hide RemembersFinalRun;
      var before := calls[..|calls| - 1];
      start := ReplayRemembersTheFinalRun(before, kind);
      OneMoreCall(calls, kind);
      if calls[|calls| - 1].kind == kind {
        start := FinalRunGrows(Find(Replay(before), kind), OfKind(before, kind), start, calls[|calls| - 1]);
      }
    }
  }

  lemma FinalRunGrows(entry: Option<Condition>, own: seq<Call>, start: nat, c: Call) returns (start': nat)
    requires RemembersFinalRun(entry, own, start)
    ensures RemembersFinalRun(Some(Refresh(c, entry)), own + [c], start')
  {
    start' := if own != [] && own[|own| - 1].status == c.status then start else |own|;
  }
}
