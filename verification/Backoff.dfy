/** The reconnect loop of one event-stream connection (run in internal/eventstream/conn.go).
    Durations are in milliseconds. */
module Backoff {
  const BACKOFF_MIN: nat := 500
  const BACKOFF_MAX: nat := 30_000

  function Min(a: nat, b: nat): nat {
    if a <= b then a else b
  }

  function Pow2(n: nat): (r: nat)
    ensures r >= 1
  {
    if n == 0 then 1 else 2 * Pow2(n - 1)
  }

  /** The last attempt up to i that stayed up for more than the maximal backoff, 0 if there is none. */
  function LastReset(lasted: seq<nat>, i: nat): (j: nat)
    requires i < |lasted|
    ensures j <= i && (j == 0 || lasted[j] > 30_000)
    ensures forall k :: j < k <= i ==> lasted[k] <= 30_000
  {
    if lasted[i] > BACKOFF_MAX || i == 0 then i else LastReset(lasted, i - 1)
  }

  /** The wait after attempt i in closed form. */
  function Wait(lasted: seq<nat>, i: nat): (wait: nat)
    requires i < |lasted|
    ensures 500 <= wait <= 30_000
    ensures wait < 30_000 ==> wait == 500 * Pow2(i - LastReset(lasted, i))
    ensures wait == 30_000 ==> 500 * Pow2(i - LastReset(lasted, i)) >= 30_000
  {
    Min(BACKOFF_MIN * Pow2(i - LastReset(lasted, i)), BACKOFF_MAX)
  }

  lemma DoublingIsCapped(n: nat)
    ensures Min(2 * Min(BACKOFF_MIN * Pow2(n), BACKOFF_MAX), BACKOFF_MAX) ==
            Min(BACKOFF_MIN * Pow2(n + 1), BACKOFF_MAX)
  {
  }

  function Sum(s: seq<nat>): nat {
    if s == [] then 0 else Sum(s[..|s| - 1]) + s[|s| - 1]
  }

  /** The loop over a whole history: lasted[i] is how long attempt i lasted until its connection
      dropped, waits[i] the delay before attempt i + 1. */
  method Run(lasted: seq<nat>) returns (waits: seq<nat>)
    ensures |waits| == |lasted|
    ensures forall i :: 0 <= i < |lasted| ==> waits[i] == Wait(lasted, i)
  {
    waits := [];
    var backoff := BACKOFF_MIN;
    var i := 0;
    while i < |lasted|
      invariant i <= |lasted| && |waits| == i
      invariant forall k :: 0 <= k < i ==> waits[k] == Wait(lasted, k)
      invariant backoff == if i == 0 then BACKOFF_MIN else Min(2 * Wait(lasted, i - 1), BACKOFF_MAX)
    {
      if i > 0 {
        DoublingIsCapped(i - 1 - LastReset(lasted, i - 1));
      }
      if lasted[i] > BACKOFF_MAX {
        backoff := BACKOFF_MIN;
      }
      waits := waits + [backoff];
      backoff := backoff * 2;
      if backoff > BACKOFF_MAX {
        backoff := BACKOFF_MAX;
      }
      i := i + 1;
    }
  }

  function Waits(lasted: seq<nat>): seq<nat> {
    seq(|lasted|, i requires 0 <= i < |lasted| => Wait(lasted, i))
  }

  /** How far a connection may still fall short of 5000 ms an attempt while its backoff is small. */
  function Slack(backoff: nat): nat {
    if backoff <= 500 then 12_500 else if backoff <= 1000 then 8_000 else if backoff <= 2000 then 4_000
    else if backoff <= 4000 then 1_000 else 0
  }

  /** The backoff the loop holds after a history. */
  function BackoffAfter(lasted: seq<nat>): nat {
    if lasted == [] then BACKOFF_MIN else Min(2 * Wait(lasted, |lasted| - 1), BACKOFF_MAX)
  }

  /** A wait is what the loop held before, unless a long-lived connection reset it. */
  lemma WaitFollows(lasted: seq<nat>)
    requires lasted != []
    ensures var n := |lasted| - 1;
            Wait(lasted, n) == if lasted[n] > BACKOFF_MAX then BACKOFF_MIN else BackoffAfter(lasted[..n])
  {
    var n := |lasted| - 1;
    WaitsOfPrefix(lasted, n);
    if n > 0 {
      DoublingIsCapped(n - 1 - LastReset(lasted, n - 1));
    }
  }

  /** However attempts fail, a connection is tried at most about once every 5 s: n attempts and the
      waits after them take at least 5000 n - 12500 ms. */
  lemma {:induction false} ReconnectRate(lasted: seq<nat>)
    ensures Sum(lasted) + Sum(Waits(lasted)) >= 5_000 * |lasted| - 12_500 + Slack(BackoffAfter(lasted))
    ensures Sum(lasted) + Sum(Waits(lasted)) >= 5_000 * |lasted| - 12_500
  {
    hide Wait, LastReset, Pow2;
    if lasted != [] {
      var n := |lasted| - 1;
      ReconnectRate(lasted[..n]);
      WaitsOfPrefix(lasted, n);
      assert Waits(lasted)[..n] == Waits(lasted[..n]);
      WaitFollows(lasted);
      BackoffIsAStep(lasted[..n]);
    }
  }

  /** The bound is met with equality. */
  lemma ReconnectRateIsTight()
    ensures Sum([0, 0, 0, 0]) + Sum(Waits([0, 0, 0, 0])) == 5_000 * 4 - 12_500
  {
    var lasted := [0, 0, 0, 0];
    assert Waits(lasted) == [500, 1000, 2000, 4000] by {
      assert Pow2(0) == 1 && Pow2(1) == 2 && Pow2(2) == 4 && Pow2(3) == 8;
      assert LastReset(lasted, 0) == 0 && LastReset(lasted, 1) == 0 && LastReset(lasted, 2) == 0;
    }
    assert Sum([500, 1000, 2000, 4000]) == 7500 by {
      assert [500, 1000, 2000, 4000][..3] == [500, 1000, 2000] && [500, 1000, 2000][..2] == [500, 1000]
             && [500, 1000][..1] == [500];
    }
    assert lasted[..3] == [0, 0, 0] && [0, 0, 0][..2] == [0, 0] && [0, 0][..1] == [0];
  }

  /** The values backoff takes. */
  predicate IsStep(b: nat) {
    b in {500, 1000, 2000, 4000, 8000, 16000, 30000}
  }

  lemma {:induction false} BackoffIsAStep(lasted: seq<nat>)
    ensures IsStep(BackoffAfter(lasted))
  {
    if lasted != [] {
      var n := |lasted| - 1;
      BackoffIsAStep(lasted[..n]);
      WaitFollows(lasted);
    }
  }

  lemma WaitsOfPrefix(lasted: seq<nat>, n: nat)
    requires n <= |lasted|
    ensures forall i :: 0 <= i < n ==> Wait(lasted[..n], i) == Wait(lasted, i)
  {
    forall i | 0 <= i < n ensures LastReset(lasted[..n], i) == LastReset(lasted, i) {
      LastResetOfPrefix(lasted, n, i);
    }
  }

  lemma {:induction false} LastResetOfPrefix(lasted: seq<nat>, n: nat, i: nat)
    requires i < n <= |lasted|
    ensures LastReset(lasted[..n], i) == LastReset(lasted, i)
  {
    if i > 0 {
      LastResetOfPrefix(lasted, n, i - 1);
    }
  }
}
