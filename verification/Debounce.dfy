/** The per-object rate limit of stream-driven reconciles
    (shouldEnqueue and the key of dispatch in internal/eventstream/eventstream.go). Times are in ns. */
module Debounce {
  import opened Prelude

  const ENQUEUE_DEBOUNCE: int := 2_000_000_000

  /** One event with the two clock readings of shouldEnqueue: the one it is judged by and, when it is
      admitted, the one it leaves behind. */
  datatype Tick = Tick(check: int, record: int)

  predicate Admissible(last: Option<int>, t: Tick) {
    last.None? || t.check - last.value >= ENQUEUE_DEBOUNCE
  }

  /** The clock never runs backwards, and calls are serialised by a lock. */
  predicate Ordered(ts: seq<Tick>) {
    && (forall i :: 0 <= i < |ts| ==> ts[i].check <= ts[i].record)
    && (forall i, j :: 0 <= i < j < |ts| ==> ts[i].record <= ts[j].check)
  }

  /** The time the last admitted event left behind. */
  function LastOf(ts: seq<Tick>): Option<int> {
    if ts == [] then None
    else
      var before := LastOf(ts[..|ts| - 1]);
      var t := ts[|ts| - 1];
      if Admissible(before, t) then Some(t.record) else before
  }

  function Admits(ts: seq<Tick>, i: nat): bool
    requires i < |ts|
  {
    Admissible(LastOf(ts[..i]), ts[i])
  }

  /** The indices of the admitted events, ascending. */
  function Admitted(ts: seq<Tick>): seq<nat> {
    if ts == [] then []
    else
      var before := Admitted(ts[..|ts| - 1]);
      if Admits(ts, |ts| - 1) then before + [|ts| - 1] else before
  }

  /** A choice of events, ascending, each judged at least the window after its predecessor was
      recorded. */
  predicate Separated(ts: seq<Tick>, chosen: seq<nat>) {
    chosen == [] ||
    (var n := |chosen| - 1;
     && Separated(ts, chosen[..n]) && chosen[n] < |ts|
     && (n > 0 ==> chosen[n - 1] < chosen[n] &&
                   ts[chosen[n]].check - ts[chosen[n - 1]].record >= ENQUEUE_DEBOUNCE))
  }

  lemma {:induction false} SeparatedIn(ts: seq<Tick>, n: nat, chosen: seq<nat>)
    requires n <= |ts|
    ensures Separated(ts[..n], chosen) <==> Separated(ts, chosen) && (chosen != [] ==> chosen[|chosen| - 1] < n)
  {
    if chosen != [] {
      SeparatedIn(ts, n, chosen[..|chosen| - 1]);
    }
  }

  /** The map entry of a key is what its last admitted event recorded. */
  lemma {:induction false} LastIsTheLastAdmitted(ts: seq<Tick>)
    ensures Admitted(ts) != [] ==> Admitted(ts)[|Admitted(ts)| - 1] < |ts|
    ensures LastOf(ts) == if Admitted(ts) == [] then None else Some(ts[Admitted(ts)[|Admitted(ts)| - 1]].record)
  {
    if ts != [] {
      LastIsTheLastAdmitted(ts[..|ts| - 1]);
    }
  }

  lemma {:induction false} AdmittedAreSeparated(ts: seq<Tick>)
    ensures Separated(ts, Admitted(ts))
  {
    if ts != [] {
      var n := |ts| - 1;
      AdmittedAreSeparated(ts[..n]);
      LastIsTheLastAdmitted(ts[..n]);
      SeparatedIn(ts, n, Admitted(ts[..n]));
      if Admits(ts, n) {
        assert Admitted(ts)[..|Admitted(ts)| - 1] == Admitted(ts[..n]);
      }
    }
  }

  lemma AdmittedExactly(ts: seq<Tick>, i: nat)
    requires i < |ts|
    ensures i in Admitted(ts) <==> Admits(ts, i)
    decreases |ts|
  {
    var n := |ts| - 1;
    LastIsTheLastAdmitted(ts[..n]);
    if i < n {
      AdmittedExactly(ts[..n], i);
      assert ts[..n][..i] == ts[..i];
    } else {
      AdmittedBelow(ts[..n]);
    }
  }

  lemma {:induction false} AdmittedBelow(ts: seq<Tick>)
    ensures forall i :: i in Admitted(ts) ==> i < |ts|
  {
    if ts != [] {
      AdmittedBelow(ts[..|ts| - 1]);
    }
  }

  /** Every refused event has an admitted one less than the window before it. */
  lemma RefusedFollowsAdmitted(ts: seq<Tick>, i: nat) returns (j: nat)
    requires i < |ts| && !Admits(ts, i)
    ensures j < i && Admits(ts, j) && ts[i].check - ts[j].record < 2_000_000_000
  {
    LastIsTheLastAdmitted(ts[..i]);
    var before := Admitted(ts[..i]);
    j := before[|before| - 1];
    AdmittedExactly(ts[..i], j);
    assert ts[..i][..j] == ts[..j];
  }

  /** Between the k-th and the l-th of any separated choice lie at least l - k windows. */
  lemma {:induction false} SeparatedSpans(ts: seq<Tick>, chosen: seq<nat>, k: nat, l: nat)
    requires Ordered(ts) && Separated(ts, chosen) && k <= l < |chosen|
    ensures chosen[k] < |ts| && chosen[l] < |ts|
    ensures ts[chosen[l]].record - ts[chosen[k]].record >= (l - k) * ENQUEUE_DEBOUNCE
    decreases |chosen|
  {
    var n := |chosen| - 1;
    if l < n {
      SeparatedSpans(ts, chosen[..n], k, l);
    } else if k < l {
      SeparatedSpans(ts, chosen[..n], k, l - 1);
    }
  }

  /** Rate bound: however the events come, a stretch of time of any length holds at most
      length / window + 1 admitted ones. */
  lemma RateIsBounded(ts: seq<Tick>, k: nat, l: nat, length: int)
    requires Ordered(ts) && k <= l < |Admitted(ts)|
    requires Admitted(ts)[k] < |ts| && Admitted(ts)[l] < |ts|
    requires ts[Admitted(ts)[l]].record - ts[Admitted(ts)[k]].record <= length
    ensures l - k + 1 <= length / 2_000_000_000 + 1
  {
    AdmittedAreSeparated(ts);
    SeparatedSpans(ts, Admitted(ts), k, l);
  }

  /** What one more event does to the admitted ones. */
  lemma OneMoreEvent(ts: seq<Tick>)
    requires ts != []
    ensures var n := |ts| - 1;
            if Admissible(LastOf(ts[..n]), ts[n])
            then Admitted(ts) == Admitted(ts[..n]) + [n] && LastOf(ts) == Some(ts[n].record)
            else Admitted(ts) == Admitted(ts[..n]) && LastOf(ts) == LastOf(ts[..n])
  {
  }

  lemma LastIsPast(ts: seq<Tick>)
    requires Ordered(ts) && ts != []
    ensures LastOf(ts[..|ts| - 1]).Some? ==> LastOf(ts[..|ts| - 1]).value <= ts[|ts| - 1].check
    ensures LastOf(ts[..|ts| - 1]).None? <==> Admitted(ts[..|ts| - 1]) == []
  {
    LastIsTheLastAdmitted(ts[..|ts| - 1]);
  }

  /** The choice is no larger than the admitted one, and if it is as large, it ends no earlier. */
  predicate NoBetter(ts: seq<Tick>, chosen: seq<nat>)
    requires forall k :: 0 <= k < |chosen| ==> chosen[k] < |ts|
  {
    && |chosen| <= |Admitted(ts)|
    && (|chosen| == |Admitted(ts)| && chosen != [] ==>
          LastOf(ts).Some? && ts[chosen[|chosen| - 1]].record >= LastOf(ts).value)
  }

  lemma {:induction false} SeparatedAreIndices(ts: seq<Tick>, chosen: seq<nat>)
    requires Separated(ts, chosen)
    ensures forall k :: 0 <= k < |chosen| ==> chosen[k] < |ts|
  {
    if chosen != [] {
      SeparatedAreIndices(ts, chosen[..|chosen| - 1]);
      assert forall k :: 0 <= k < |chosen| - 1 ==> chosen[k] == chosen[..|chosen| - 1][k];
    }
  }

  /** Optimality: no separated choice of the same events is larger than the admitted one. */
  lemma {:induction false} AdmittingGreedilyIsOptimal(ts: seq<Tick>, chosen: seq<nat>)
    requires Ordered(ts) && Separated(ts, chosen)
    ensures |chosen| <= |Admitted(ts)|
    ensures (forall k :: 0 <= k < |chosen| ==> chosen[k] < |ts|) && NoBetter(ts, chosen)
    decreases |ts|
  {
    hide Admitted, LastOf;
    SeparatedAreIndices(ts, chosen);
    if chosen != [] {
      var n, m := |ts| - 1, |chosen| - 1;
      OneMoreEvent(ts);
      LastIsPast(ts);
      var rest := if chosen[m] == n then chosen[..m] else chosen;
      SeparatedIn(ts, n, rest);
      AdmittingGreedilyIsOptimal(ts[..n], rest);
    }
  }

  // ---- what a full channel loses ----

  /** Event i reaches the controller: it passes the debounce and the channel has room for it. */
  predicate Sent(ts: seq<Tick>, room: seq<bool>, i: nat)
    requires i < |ts| == |room|
  {
    Admits(ts, i) && room[i]
  }

  /** Event i is sent, or collapsed into one that was sent less than a window before. */
  predicate Served(ts: seq<Tick>, room: seq<bool>, i: nat)
    requires i < |ts| == |room|
  {
    Sent(ts, room, i) ||
    exists j :: 0 <= j < i && Sent(ts, room, j) && ts[i].check - ts[j].record < ENQUEUE_DEBOUNCE
  }

  lemma AdmittedKeepApart(ts: seq<Tick>, j: nat, i: nat)
    requires Ordered(ts) && j < i < |ts| && Admits(ts, j) && Admits(ts, i)
    ensures ts[i].check - ts[j].record >= 2_000_000_000
  {
    AdmittedExactly(ts[..i], j);
    assert ts[..i][..j] == ts[..j];
    LastIsTheLastAdmitted(ts[..i]);
    AdmittedAreSeparated(ts[..i]);
    var before := Admitted(ts[..i]);
    var k :| 0 <= k < |before| && before[k] == j;
    SeparatedSpans(ts[..i], before, k, |before| - 1);
  }

  /** Collapsing loses no event of an object, over a whole history, if and only if every event that
      passes the debounce finds room. */
  lemma NothingIsLostExactly(ts: seq<Tick>, room: seq<bool>)
    requires Ordered(ts) && |room| == |ts|
    ensures (forall i :: 0 <= i < |ts| ==> Served(ts, room, i))
            <==> (forall i :: 0 <= i < |ts| && Admits(ts, i) ==> room[i])
  {
    if forall i :: 0 <= i < |ts| && Admits(ts, i) ==> room[i] {
      forall i | 0 <= i < |ts| ensures Served(ts, room, i) {
        if !Admits(ts, i) {
          var j := RefusedFollowsAdmitted(ts, i);
          assert Sent(ts, room, j);
        }
      }
    }
    forall i | 0 <= i < |ts| && Admits(ts, i) && !room[i] ensures !Served(ts, room, i) {
      forall j | 0 <= j < i && Sent(ts, room, j) ensures ts[i].check - ts[j].record >= ENQUEUE_DEBOUNCE {
        AdmittedKeepApart(ts, j, i);
      }
    }
  }
}
