/** What every reachable world of the ClavexClient protocol satisfies. */
module ClientInvariants {
  import opened Prelude
  import opened Conditions
  import opened ClientSync
  import opened ClientProtocol

  // ---- one CR name ----

  /** The status shows a condition with exactly these fields. */
  predicate Shows(s: Status, kind: string, status: ConditionStatus, reason: string, message: string, generation: nat) {
    var c := Find(s.conditions, kind);
    && c.Some? && c.value.kind == kind && c.value.status == status && c.value.reason == reason
    && c.value.message == message && c.value.observedGeneration == generation
  }

  predicate IsTrue(s: Status, kind: string, generation: nat) {
    var c := Find(s.conditions, kind);
    c.Some? && c.value.status == StatusTrue && c.value.observedGeneration == generation
  }

  /** Ready=True is only ever persisted together with Synced=True, both at the status's generation. */
  predicate Coherent(s: Status) {
    var ready := Find(s.conditions, READY);
    ready.Some? && ready.value.status == StatusTrue ==>
      IsTrue(s, READY, s.observedGeneration) && IsTrue(s, SYNCED, s.observedGeneration)
  }

  predicate VersionOk(v: Version) {
    v.Object? ==> 1 <= v.generation && v.status.observedGeneration <= v.generation && Coherent(v.status)
  }

  /** How a later version relates to an earlier one: within an incarnation, generations and observed
      generations only grow, a generation fixes the spec, and a deletion mark stays. */
  predicate Before(a: Version, b: Version) {
    && a.epoch <= b.epoch
    && (a.epoch == b.epoch ==> a.Object? == b.Object?)
    && (a.epoch == b.epoch && a.Object? ==>
          && a.generation <= b.generation
          && (a.generation == b.generation ==> a.spec == b.spec)
          && (a.deleting ==> b.deleting)
          && a.status.observedGeneration <= b.status.observedGeneration)
  }

  /** The object is persisted with the operator's finalizer. */
  predicate Covered(v: Version) {
    v.Object? && v.finalizer
  }

  predicate ReconcilePhase(p: Phase) {
    p.Refetching? || p.Syncing? || p.Creating? || p.Updating? || p.Settled? || p.Broken?
  }

  /** Only generations the operator has read can have been observed. */
  predicate ObservedIsSeen(copy: Version, v: Version) {
    v.Object? && v.status.observedGeneration > 0 ==>
      copy.Object? && copy.epoch == v.epoch && v.status.observedGeneration <= copy.generation
  }

  ghost predicate HistoryOk(t: Track) {
    && t.WellFormed()
    && (forall i :: 0 <= i < |t.history| ==> VersionOk(t.history[i]) && t.history[i].epoch <= i)
    && (forall i, j :: 0 <= i <= j < |t.history| ==> Before(t.history[i], t.history[j]))
    && (forall j :: t.seen <= j < |t.history| ==> ObservedIsSeen(t.Copy(), t.history[j]))
    // What the operator may still read as safely finalized is so at present.
    && (forall i, j :: t.seen <= i <= j < |t.history| && Covered(t.history[i]) && !t.history[i].deleting ==>
          Covered(t.history[j]))
  }

  predicate PhaseOk(t: Track)
    requires t.WellFormed()
  {
    && (!t.phase.Idle? ==> t.Copy().Object?)
    && (t.phase.Purged? ==> CopyIs(t, true, true))
    && (ReconcilePhase(t.phase) ==> Covered(t.Last()))
  }

  ghost predicate TrackOk(t: Track) {
    HistoryOk(t) && PhaseOk(t)
  }

  // ---- the whole world ----

  /** The cover of one CR name: its finalizer is persisted and its pass is not about to drop it. */
  predicate Covers(t: Track) {
    t.seen < |t.history| && Covered(t.Last()) && !t.phase.Purged?
  }

  /** A remote client made by a pass is covered by the finalizer of the CR whose pass made it. */
  predicate NoOrphan(w: World) {
    w.remote.Some? && w.remote.value.creator.Some? ==>
      var k := w.remote.value.creator.value;
      k in w.tracks && Covers(w.tracks[k])
  }

  ghost predicate Inv(w: World) {
    && (forall k :: k in w.tracks ==> TrackOk(w.tracks[k]))
    && NoOrphan(w)
  }

  // ---- preservation ----

  lemma BeforeIsTransitive(a: Version, b: Version, c: Version)
    requires Before(a, b) && Before(b, c)
    ensures Before(a, c)
  {
  }

  lemma PushKeepsHistory(t: Track, v: Version)
    requires HistoryOk(t) && VersionOk(v) && v.epoch <= |t.history|
    requires Before(t.Last(), v) && ObservedIsSeen(t.Copy(), v)
    requires Covered(t.Last()) ==> Covered(v) || (t.Current() && t.Copy().deleting)
    ensures HistoryOk(t.Push(v))
  {
    var t' := t.Push(v);
    assert t'.history[..|t.history|] == t.history;
    forall i | 0 <= i < |t'.history| ensures Before(t'.history[i], v) {
      if i < |t.history| {
        BeforeIsTransitive(t.history[i], t.Last(), v);
      }
    }
  }

  lemma ReadKeepsHistory(t: Track, at: nat, p: Phase)
    requires HistoryOk(t) && t.seen <= at < |t.history|
    ensures HistoryOk(t.(seen := at, phase := p))
  {
    forall j | at <= j < |t.history| ensures ObservedIsSeen(t.history[at], t.history[j]) {
      assert Before(t.Copy(), t.history[at]) && Before(t.history[at], t.history[j]);
    }
  }

  lemma UserStepKeepsTrack(w: World, a: Action)
    requires UserAction(a) && Enabled(w, a) && TrackOk(w.tracks[a.key])
    ensures var t, t' := w.tracks[a.key], UserStep(w.tracks[a.key], a);
            TrackOk(t') && t'.phase == t.phase && (Covered(t.Last()) ==> Covered(t'.Last()))
  {
    var t := w.tracks[a.key];
    var v := UserStep(t, a).Last();
    assert VersionOk(t.Last()) && t.Last().epoch <= |t.history| - 1;
    assert ObservedIsSeen(t.Copy(), t.Last());
    PushKeepsHistory(t, v);
  }

  lemma FalseIsCoherent(s: Status, reason: string, message: string, generation: nat, now: int)
    ensures Coherent(SetFalse(s, READY, reason, message, generation, now))
  {
    UpsertActsOnOneKind(s.conditions, Call(READY, StatusFalse, reason, message, generation, now), READY);
  }

  lemma ErrorIsCoherent(s: Status, message: string, generation: nat, now: int)
    ensures Coherent(ErrorStatus(s, generation, message, now))
    ensures var s' := ErrorStatus(s, generation, message, now);
            && Shows(s', "Ready", StatusFalse, "ReconcileError", message, generation)
            && Shows(s', "Synced", StatusFalse, "ReconcileError", message, generation)
            && s'.observedGeneration == s.observedGeneration
  {
    FalseIsCoherent(s, "ReconcileError", message, generation, now);
    var s' := SetFalse(s, READY, "ReconcileError", message, generation, now);
    UpsertActsOnOneKind(s.conditions, Call(READY, StatusFalse, "ReconcileError", message, generation, now), READY);
    UpsertActsOnOneKind(s'.conditions, Call(SYNCED, StatusFalse, "ReconcileError", message, generation, now), READY);
    UpsertActsOnOneKind(s'.conditions, Call(SYNCED, StatusFalse, "ReconcileError", message, generation, now), SYNCED);
  }

  /** An auth error says nothing about Synced. */
  lemma AuthErrorTouchesReadyOnly(s: Status, message: string, generation: nat, now: int, kind: string)
    ensures var s' := AuthErrorStatus(s, generation, message, now);
            && Shows(s', "Ready", StatusFalse, "AuthSecretError", message, generation)
            && s'.observedGeneration == s.observedGeneration
            && (kind != "Ready" ==> Find(s'.conditions, kind) == Find(s.conditions, kind))
  {
    var c := Call(READY, StatusFalse, "AuthSecretError", message, generation, now);
    UpsertActsOnOneKind(s.conditions, c, READY);
    UpsertActsOnOneKind(s.conditions, c, kind);
  }

  /** The success status: a correction of drift shows on Synced, and only there. */
  predicate ShowsSuccess(s: Status, generation: nat, drifted: bool) {
    && s.observedGeneration == generation
    && Shows(s, "Ready", StatusTrue, "Synced", "Client is in sync with the Admin API", generation)
    && (if drifted
        then Shows(s, "Synced", StatusTrue, "DriftCorrected",
                   "Live client had diverged from spec out-of-band; corrected to match spec", generation)
        else Shows(s, "Synced", StatusTrue, "Synced", "Client is in sync with the Admin API", generation))
  }

  lemma SuccessIsReady(s: Status, generation: nat, drifted: bool, now: int)
    ensures var s' := SuccessStatus(s, generation, drifted, now);
            Coherent(s') && IsTrue(s', READY, generation) && IsTrue(s', SYNCED, generation)
    ensures ShowsSuccess(SuccessStatus(s, generation, drifted, now), generation, drifted)
  {
    TwoUpserts(s.conditions, ReadyCall(generation, now), SyncedCall(generation, drifted, now));
  }

  lemma TwoUpserts(cs: seq<Condition>, ready: Call, synced: Call)
    requires ready.kind != synced.kind
    ensures var cs' := Upsert(Upsert(cs, ready), synced);
            && Find(cs', ready.kind) == Some(Refresh(ready, Find(cs, ready.kind)))
            && Find(cs', synced.kind) == Some(Refresh(synced, Find(cs, synced.kind)))
  {
    UpsertActsOnOneKind(cs, ready, ready.kind);
    UpsertActsOnOneKind(cs, ready, synced.kind);
    UpsertActsOnOneKind(Upsert(cs, ready), synced, ready.kind);
    UpsertActsOnOneKind(Upsert(cs, ready), synced, synced.kind);
  }

  /** One optimistic-concurrency update: accepted, refused, or accepted without the caller knowing. */
  lemma SubmitKeepsTrack(t: Track, v: Version, out: Outcome, p: Phase)
    requires HistoryOk(t) && VersionOk(v) && v.epoch <= |t.history|
    requires Before(t.Copy(), v) && ObservedIsSeen(t.Copy(), v)
    requires Covered(t.Copy()) ==> Covered(v) || t.Copy().deleting
    requires p.Idle? || (p.Refetching? && t.Accepts(out) && Covered(v))
    requires p.Refetching? ==> t.Copy().Object?
    ensures var t' := t.Submit(v, out).(phase := p);
            && TrackOk(t')
            && (Covered(t.Last()) && (Covered(t.Copy()) ==> Covered(v)) ==> Covered(t'.Last()))
  {
    if t.Current() {
      PushKeepsHistory(t, v);
    }
  }

  /** An update never changes what belongs to the user, and only a success raises what is observed. */
  predicate OwnFieldsOnly(c: Version, v: Version, success: bool)
    requires c.Object?
  {
    v.Object? ==>
      && v.epoch == c.epoch && v.spec == c.spec && v.generation == c.generation && v.deleting == c.deleting
      && v.status.observedGeneration == (if success then c.generation else c.status.observedGeneration)
  }

  lemma WrittenIsOk(t: Track, a: Action)
    requires WriteAction(a) && TrackEnabled(t, a) && TrackOk(t)
    ensures var c, v := t.Copy(), Written(t, a);
            && OwnFieldsOnly(c, v, a.PersistSuccess?) && (v.Object? ==> Coherent(v.status))
            && (v.Absent? ==> v.epoch == |t.history|)
            && (Covered(c) && !a.DropFinalizer? ==> Covered(v)) && (a.AddFinalizer? ==> Covered(v))
            && (a.DropFinalizer? ==> c.deleting)
  {
    var c := t.Copy();
    assert VersionOk(c);
    match a
    case PersistAuthError(_, message, now, out) =>
      FalseIsCoherent(c.status, "AuthSecretError", message, c.generation, now);
    case PersistError(_, message, now, out) =>
      ErrorIsCoherent(c.status, message, c.generation, now);
    case PersistSuccess(_, now, out) =>
      SuccessIsReady(c.status, c.generation, t.phase.drifted, now);
    case _ =>
  }

  lemma WriteKeepsTrack(w: World, a: Action)
    requires WriteAction(a) && Enabled(w, a) && TrackOk(w.tracks[a.key])
    ensures var t, t' := w.tracks[a.key], ClusterStep(w.tracks[a.key], a);
            TrackOk(t') && !t'.phase.Purged? && (Covered(t.Last()) && !a.DropFinalizer? ==> Covered(t'.Last()))
  {
    var t := w.tracks[a.key];
    var c := t.Copy();
    assert VersionOk(c) && c.epoch <= t.seen && ObservedIsSeen(c, c);
    WrittenIsOk(t, a);
    SubmitKeepsTrack(t, Written(t, a), a.out, ClusterStep(t, a).phase);
  }

  lemma ReadKeepsTrack(w: World, a: Action)
    requires a.Get? || a.GetAgain? || a.EndPass?
    requires Enabled(w, a) && TrackOk(w.tracks[a.key])
    ensures var t, t' := w.tracks[a.key], ClusterStep(w.tracks[a.key], a);
            TrackOk(t') && !t'.phase.Purged? && t'.Last() == t.Last()
  {
    hide HistoryOk;
    var t := w.tracks[a.key];
    ReadKeepsHistory(t, if a.EndPass? then t.seen else a.at, ClusterStep(t, a).phase);
  }

  /** A pass enters its remote phase only under a persisted finalizer. */
  lemma RemoteStepKeepsTrack(w: World, a: Action)
    requires RemoteAction(a) && Enabled(w, a) && TrackOk(w.tracks[a.key])
    ensures var t, p := w.tracks[a.key], PhaseAfter(w.tracks[a.key], w.remote, a);
            && TrackOk(t.(phase := p))
            && (p.Purged? ==> a.DeleteRemote? && a.out == Done)
            && (!a.DeleteRemote? ==> Covered(t.Last()))
  {
    var t := w.tracks[a.key];
    if a.GetRemote? && t.phase.Fetched? {
      assert Covered(t.Copy()) && !t.Copy().deleting;
    }
  }

  lemma TrackAfterIsOk(w: World, a: Action)
    requires !a.OutsideWrite? && Enabled(w, a) && TrackOk(w.tracks[a.key])
    ensures var t, t' := w.tracks[a.key], TrackAfter(w.tracks[a.key], w.remote, a);
            && TrackOk(t')
            && (Covered(t.Last()) && !a.DropFinalizer? ==> Covered(t'.Last()))
            && (t'.phase.Purged? ==> (a.DeleteRemote? && a.out == Done) || (t.phase.Purged? && UserAction(a)))
  {
    if UserAction(a) {
      UserStepKeepsTrack(w, a);
    } else if RemoteAction(a) {
      RemoteStepKeepsTrack(w, a);
    } else if WriteAction(a) {
      WriteKeepsTrack(w, a);
    } else {
      ReadKeepsTrack(w, a);
    }
  }

  lemma CoverCarries(w: World, a: Action, k: string)
    requires Inv(w) && Enabled(w, a) && k in w.tracks && Covers(w.tracks[k])
    requires !(a.DeleteRemote? && a.out == Done)
    ensures Covers(Next(w, a).tracks[k])
  {
    if !a.OutsideWrite? && a.key == k {
      TrackAfterIsOk(w, a);
    }
  }

  lemma StepKeepsNoOrphan(w: World, a: Action)
    requires Inv(w) && Enabled(w, a)
    ensures NoOrphan(Next(w, a))
  {
    var remote := RemoteAfter(w, a);
    if remote.Some? && remote.value.creator.Some? {
      var k := remote.value.creator.value;
      if a.CreateRemote? && a.key == k {
        RemoteStepKeepsTrack(w, a);
      }
      CoverCarries(w, a, k);
    }
  }

  lemma StepKeepsInv(w: World, a: Action)
    requires Inv(w) && Enabled(w, a)
    ensures Inv(Next(w, a))
  {
    StepKeepsNoOrphan(w, a);
    if !a.OutsideWrite? {
      TrackAfterIsOk(w, a);
    }
  }
}
