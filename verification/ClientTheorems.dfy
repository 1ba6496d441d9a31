/** The main results about whole runs of the ClavexClient protocol. */
module ClientTheorems {
  import opened Prelude
  import opened Conditions
  import opened ClientSync
  import opened ClientProtocol
  import opened ClientInvariants

  lemma StartIsOk(keys: set<string>, remote: Option<OidcClient>)
    ensures Inv(Start(keys, remote))
  {
  }

  lemma {:induction false} RunKeepsInv(worlds: seq<World>, i: nat)
    requires IsRun(worlds) && Inv(worlds[0]) && i < |worlds|
    ensures Inv(worlds[i])
  {
    hide Inv, Enabled, Next;
    if i > 0 {
      RunKeepsInv(worlds, i - 1);
      assert StepAt(worlds, i - 1);
      var a :| Enabled(worlds[i - 1], a) && worlds[i] == Next(worlds[i - 1], a);
      StepKeepsInv(worlds[i - 1], a);
    }
  }

  /** No orphans: in every run, a remote client that a pass created is covered by a CR of that
      clientId whose finalizer is persisted, namely the CR whose pass created it. */
  lemma NoOrphansEver(keys: set<string>, remote: Option<OidcClient>,
                      worlds: seq<World>, i: nat)
    requires IsRun(worlds) && worlds[0] == Start(keys, remote) && i < |worlds|
    requires worlds[i].remote.Some? && worlds[i].remote.value.creator.Some?
    ensures var k := worlds[i].remote.value.creator.value;
            k in worlds[i].tracks && worlds[i].tracks[k].WellFormed() && Covered(worlds[i].tracks[k].Last())
  {
    StartIsOk(keys, remote);
    RunKeepsInv(worlds, i);
  }

  /** In every run, every persisted version of every CR is coherent: Ready=True implies Synced=True
      with both conditions at status.observedGeneration, which is at most the generation and never
      decreases within one incarnation. */
  lemma PersistedStatusIsCoherent(keys: set<string>, remote: Option<OidcClient>, worlds: seq<World>,
                                  i: nat, k: string, m: nat, n: nat)
    requires IsRun(worlds) && worlds[0] == Start(keys, remote) && i < |worlds|
    requires k in worlds[i].tracks && m <= n < |worlds[i].tracks[k].history|
    requires worlds[i].tracks[k].history[m].Object? && worlds[i].tracks[k].history[n].Object?
    ensures var a, b := worlds[i].tracks[k].history[m], worlds[i].tracks[k].history[n];
            && Coherent(b.status) && b.status.observedGeneration <= b.generation
            && (a.epoch == b.epoch ==> a.status.observedGeneration <= b.status.observedGeneration)
  {
    StartIsOk(keys, remote);
    RunKeepsInv(worlds, i);
    var t := worlds[i].tracks[k];
    assert TrackOk(t);
    assert Before(t.history[m], t.history[n]) && VersionOk(t.history[n]);
  }

  // ---- drift reports ----

  /** Someone else touched the client after the last confirmation. */
  predicate Dirty(log: seq<Event>) {
    log != [] &&
    match log[|log| - 1]
    case OutsideChange => true
    case Confirmed => false
    case _ => Dirty(log[..|log| - 1])
  }

  predicate Matches(remote: Option<Remote>, spec: ClientSpec) {
    remote.Some? && UpToDate(remote.value.client, spec)
  }

  predicate Observed(v: Version) {
    v.Object? && v.status.observedGeneration == v.generation
  }

  /** What a log must hold before a drift report or a success status may be appended to it. */
  predicate Justified(log: seq<Event>, e: Event) {
    match e
    case DriftReported(k, epoch, generation) => Dirty(log) && Persisted(k, epoch, generation) in log
    case Persisted(_, _, _) => Confirmed in log
    case _ => true
  }

  ghost predicate LogOk(log: seq<Event>) {
    forall i :: 0 <= i < |log| ==> Justified(log[..i], log[i])
  }

  /** While the CR is not on its way out, a client whose generation was observed matches its spec
      unless someone else touched it. */
  predicate ReportsArmed(t: Track)
    requires t.WellFormed()
  {
    ReconcilePhase(t.phase) || (t.Copy().Object? && !t.Copy().deleting)
  }

  ghost predicate ObservedMatches(t: Track, remote: Option<Remote>, log: seq<Event>)
    requires t.WellFormed()
  {
    forall i :: t.seen <= i < |t.history| && Observed(t.history[i]) ==>
      Dirty(log) || Matches(remote, t.history[i].spec)
  }

  ghost predicate ObservedWasPersisted(t: Track, k: string, log: seq<Event>) {
    forall i :: 0 <= i < |t.history| && t.history[i].Object? && t.history[i].status.observedGeneration > 0 ==>
      Persisted(k, t.history[i].epoch, t.history[i].status.observedGeneration) in log
  }

  /** A pass about to persist success has confirmed a match, and only someone else can have broken it. */
  predicate SettledOk(t: Track, remote: Option<Remote>, log: seq<Event>)
    requires t.WellFormed()
  {
    t.phase.Settled? ==>
      Confirmed in log && t.Copy().Object? && (Dirty(log) || Matches(remote, t.Copy().spec))
  }

  ghost predicate DriftInv(w: World, k: string) {
    && Inv(w) && w.tracks.Keys == {k}
    && var t := w.tracks[k];
       && (ReportsArmed(t) ==> ObservedMatches(t, w.remote, w.log))
       && SettledOk(t, w.remote, w.log)
       && ObservedWasPersisted(t, k, w.log)
       && LogOk(w.log)
  }

  /** Every observed version the operator may still read carries the generation and spec of its copy. */
  lemma ObservedIsTheCopy(t: Track, i: nat)
    requires HistoryOk(t) && t.seen <= i < |t.history| && Observed(t.history[i])
    ensures var c, v := t.Copy(), t.history[i];
            c.Object? && c.epoch == v.epoch && c.generation == v.generation && c.spec == v.spec
  {
    assert VersionOk(t.history[i]) && ObservedIsSeen(t.Copy(), t.history[i]);
    assert Before(t.Copy(), t.history[i]);
  }

  lemma MatchCoversObserved(t: Track, remote: Option<Remote>, log: seq<Event>)
    requires HistoryOk(t) && t.Copy().Object?
    requires Dirty(log) || Matches(remote, t.Copy().spec)
    ensures ObservedMatches(t, remote, log)
  {
    forall i | t.seen <= i < |t.history| && Observed(t.history[i])
      ensures Dirty(log) || Matches(remote, t.history[i].spec)
    {
      ObservedIsTheCopy(t, i);
    }
  }

  lemma LogGrows(log: seq<Event>, more: seq<Event>)
    requires LogOk(log) && |more| <= 1 && (more != [] ==> Justified(log, more[0]))
    ensures LogOk(log + more)
    ensures forall e :: e in log ==> e in log + more
    ensures Dirty(log + more) == (if more == [] || more[0].Persisted? || more[0].DriftReported? then Dirty(log)
                                  else more[0].OutsideChange?)
  {
    var all := log + more;
    forall i | 0 <= i < |all| ensures Justified(all[..i], all[i]) {
      assert all[..i] == if i < |log| then log[..i] else log;
    }
    assert more == [] ==> all == log;
    assert more != [] ==> all[..|all| - 1] == log;
  }

  /** A drift report, the moment it is made, is justified by the log. */
  lemma EventsAreJustified(w: World, a: Action, k: string)
    requires DriftInv(w, k) && Enabled(w, a)
    ensures var es := EventsOf(w, a); |es| <= 1 && (es != [] ==> Justified(w.log, es[0]))
  {
    if a.GetRemote? && Drifted(w.tracks[k].Copy(), a.answer) {
      var t := w.tracks[k];
      assert VersionOk(t.Copy());
      assert Observed(t.history[t.seen]) && ReportsArmed(t);
      RenderingKeepsUpToDate(w.remote.value.client, a.answer.client, t.Copy().spec);
    }
  }

  lemma UserStepKeepsObserved(w: World, a: Action, k: string)
    requires DriftInv(w, k) && UserAction(a) && Enabled(w, a)
    ensures var t, t' := w.tracks[k], UserStep(w.tracks[k], a);
            && t'.phase == t.phase && t'.seen == t.seen && t'.Copy() == t.Copy()
            && (ObservedMatches(t, w.remote, w.log) ==> ObservedMatches(t', w.remote, w.log))
            && ObservedWasPersisted(t', k, w.log)
  {
    var t := w.tracks[k];
    var v := UserStep(t, a).Last();
    assert VersionOk(t.Last());
    assert Observed(v) ==> t.Last().Object? && Observed(t.Last()) && v.spec == t.Last().spec;
  }

  lemma ReadKeepsObserved(w: World, k: string, at: nat)
    requires DriftInv(w, k) && w.tracks[k].seen <= at < |w.tracks[k].history|
    requires w.tracks[k].phase.Refetching? || (w.tracks[k].history[at].Object? && !w.tracks[k].history[at].deleting)
    ensures ObservedMatches(w.tracks[k].(seen := at), w.remote, w.log)
  {
    var t := w.tracks[k];
    forall i | at <= i < |t.history| && Observed(t.history[i])
      ensures Dirty(w.log) || Matches(w.remote, t.history[i].spec)
    {
      ObservedIsTheCopy(t, i);
      assert Before(t.Copy(), t.history[at]) && Before(t.history[at], t.history[i]);
      assert ReportsArmed(t);
    }
  }

  /** A call to the Admin API leaves the client alone or makes it match the pass's copy, and a pass
      is settled only when it matches. */
  lemma RemoteCallMatches(w: World, a: Action)
    requires RemoteAction(a) && Enabled(w, a) && !a.DeleteRemote?
    ensures var spec := w.tracks[a.key].Copy().spec;
            && (RemoteAfter(w, a) == w.remote || Matches(RemoteAfter(w, a), spec))
            && (PhaseAfter(w.tracks[a.key], w.remote, a).Settled? ==> Matches(RemoteAfter(w, a), spec))
  {
    if a.GetRemote? && a.answer.Found? {
      RenderingKeepsUpToDate(w.remote.value.client, a.answer.client, w.tracks[a.key].Copy().spec);
    }
  }

  lemma RemoteCallsAreArmed(w: World, a: Action)
    requires RemoteAction(a) && !a.DeleteRemote? && Enabled(w, a)
    ensures var t := w.tracks[a.key]; t.WellFormed() && t.Copy().Object? && ReportsArmed(t)
  {
  }

  lemma RemoteStepKeepsObserved(w: World, a: Action, k: string)
    requires DriftInv(w, k) && RemoteAction(a) && Enabled(w, a) && !a.DeleteRemote?
    ensures ObservedMatches(w.tracks[k], RemoteAfter(w, a), w.log + EventsOf(w, a))
  {
    assert a.key == k;
    hide Enabled, RemoteAfter, EventsOf, PhaseAfter, Justified, HistoryOk, Matches;
    var t := w.tracks[k];
    RemoteCallsAreArmed(w, a);
    RemoteCallMatches(w, a);
    EventsAreJustified(w, a, k);
    LogGrows(w.log, EventsOf(w, a));
    if Matches(RemoteAfter(w, a), t.Copy().spec) {
      MatchCoversObserved(t, RemoteAfter(w, a), w.log + EventsOf(w, a));
    } else {
      RemoteEventsDirtyNothing(w, a);
    }
  }

  /** A call that leaves the client alone and does not find it matching logs no confirmation. */
  lemma RemoteEventsDirtyNothing(w: World, a: Action)
    requires RemoteAction(a) && Enabled(w, a) && !a.DeleteRemote?
    requires !Matches(RemoteAfter(w, a), w.tracks[a.key].Copy().spec)
    ensures var es := EventsOf(w, a); es == [] || es[0].DriftReported?
  {
    RemoteCallMatches(w, a);
  }

  lemma WrittenIsMatched(w: World, a: Action, k: string)
    requires DriftInv(w, k) && WriteAction(a) && Enabled(w, a) && ReportsArmed(w.tracks[k])
    requires Observed(Written(w.tracks[k], a))
    ensures Dirty(w.log) || Matches(w.remote, Written(w.tracks[k], a).spec)
  {
    var t := w.tracks[k];
    WrittenIsOk(t, a);
    if !a.PersistSuccess? {
      assert Observed(t.history[t.seen]);
    }
  }

  ghost predicate ArmedMatches(t: Track, remote: Option<Remote>, log: seq<Event>) {
    t.WellFormed() && (ReportsArmed(t) ==> ObservedMatches(t, remote, log))
  }

  /** A version submitted by the operator extends the observed versions by at most itself. */
  lemma SubmitKeepsObserved(t: Track, v: Version, out: Outcome, p: Phase, remote: Option<Remote>, log: seq<Event>)
    requires ArmedMatches(t, remote, log)
    requires ReportsArmed(t) && Observed(v) ==> Dirty(log) || Matches(remote, v.spec)
    requires ReconcilePhase(p) ==> ReportsArmed(t)
    ensures ArmedMatches(t.Submit(v, out).(phase := p), remote, log)
  {
  }

  lemma WriteKeepsObserved(w: World, a: Action, k: string)
    requires DriftInv(w, k) && WriteAction(a) && Enabled(w, a)
    ensures ArmedMatches(ClusterStep(w.tracks[k], a), w.remote, w.log)
  {
    var t, v := w.tracks[k], Written(w.tracks[k], a);
    if ReportsArmed(t) && Observed(v) {
      WrittenIsMatched(w, a, k);
    }
    SubmitKeepsObserved(t, v, a.out, ClusterStep(t, a).phase, w.remote, w.log);
  }

  lemma MoveKeepsObserved(w: World, k: string, at: nat, p: Phase)
    requires DriftInv(w, k) && w.tracks[k].seen <= at < |w.tracks[k].history|
    requires ReconcilePhase(p) ==> w.tracks[k].phase.Refetching?
    ensures ArmedMatches(w.tracks[k].(seen := at, phase := p), w.remote, w.log)
  {
    if ReportsArmed(w.tracks[k].(seen := at, phase := p)) {
      ReadKeepsObserved(w, k, at);
    }
  }

  lemma ReadStepKeepsObserved(w: World, a: Action, k: string)
    requires DriftInv(w, k) && (a.Get? || a.GetAgain? || a.EndPass?) && Enabled(w, a)
    ensures ArmedMatches(ClusterStep(w.tracks[k], a), w.remote, w.log)
  {
    hide Inv;
    var t, t' := w.tracks[k], ClusterStep(w.tracks[k], a);
    MoveKeepsObserved(w, k, if a.EndPass? then t.seen else a.at, t'.phase);
  }

  lemma OutsideWriteKeepsObserved(w: World, a: Action, k: string)
    requires DriftInv(w, k) && a.OutsideWrite?
    ensures ArmedMatches(w.tracks[k], RemoteAfter(w, a), w.log + EventsOf(w, a))
  {
    LogGrows(w.log, EventsOf(w, a));
  }

  lemma ClusterStepKeepsObserved(w: World, a: Action, k: string)
    requires DriftInv(w, k) && !a.OutsideWrite? && !RemoteAction(a) && Enabled(w, a)
    ensures ArmedMatches(TrackAfter(w.tracks[k], w.remote, a), w.remote, w.log + EventsOf(w, a))
  {
    EventsAreJustified(w, a, k);
    LogGrows(w.log, EventsOf(w, a));
    assert Dirty(w.log + EventsOf(w, a)) == Dirty(w.log);
    if UserAction(a) {
      UserStepKeepsObserved(w, a, k);
    } else if WriteAction(a) {
      WriteKeepsObserved(w, a, k);
    } else {
      ReadStepKeepsObserved(w, a, k);
    }
  }

  lemma DeleteDisarms(w: World, a: Action, k: string)
    requires DriftInv(w, k) && a.DeleteRemote? && Enabled(w, a)
    ensures !ReportsArmed(TrackAfter(w.tracks[k], w.remote, a))
  {
  }

  lemma StepKeepsObserved(w: World, a: Action, k: string)
    requires DriftInv(w, k) && Enabled(w, a)
    ensures k in Next(w, a).tracks && ArmedMatches(Next(w, a).tracks[k], Next(w, a).remote, Next(w, a).log)
  {
    if a.OutsideWrite? {
      OutsideWriteKeepsObserved(w, a, k);
    } else if a.DeleteRemote? {
      DeleteDisarms(w, a, k);
    } else if RemoteAction(a) {
      RemoteStepKeepsObserved(w, a, k);
    } else {
      ClusterStepKeepsObserved(w, a, k);
      assert RemoteAfter(w, a) == w.remote;
    }
  }

  lemma WriteKeepsPersisted(w: World, a: Action, k: string)
    requires DriftInv(w, k) && WriteAction(a) && Enabled(w, a)
    ensures ObservedWasPersisted(ClusterStep(w.tracks[k], a), k, w.log + EventsOf(w, a))
  {
    hide LogOk, Coherent;
    var t := w.tracks[k];
    var v := Written(t, a);
    WrittenIsOk(t, a);
    if v.Object? && v.status.observedGeneration > 0 && t.Current() && a.out.TookEffect() {
      assert Persisted(k, v.epoch, v.status.observedGeneration) in w.log + EventsOf(w, a);
    }
  }

  lemma StepKeepsPersisted(w: World, a: Action, k: string)
    requires DriftInv(w, k) && Enabled(w, a)
    ensures ObservedWasPersisted(Next(w, a).tracks[k], k, Next(w, a).log)
  {
    hide HistoryOk, LogOk, ObservedMatches;
    if a.OutsideWrite? {
    } else if UserAction(a) {
      UserStepKeepsObserved(w, a, k);
    } else if WriteAction(a) {
      WriteKeepsPersisted(w, a, k);
    } else {
      assert Next(w, a).tracks[k].history == w.tracks[k].history;
    }
  }

  lemma RemoteStepSettles(w: World, a: Action, k: string)
    requires DriftInv(w, k) && RemoteAction(a) && Enabled(w, a) && !a.DeleteRemote?
    ensures SettledOk(w.tracks[k].(phase := PhaseAfter(w.tracks[k], w.remote, a)),
                      RemoteAfter(w, a), w.log + EventsOf(w, a))
  {
    RemoteCallMatches(w, a);
    if PhaseAfter(w.tracks[k], w.remote, a).Settled? {
      assert EventsOf(w, a) == [Confirmed];
    }
  }

  /** Only a call to the Admin API settles a pass. */
  lemma ClusterStepSettlesNothing(t: Track, a: Action)
    requires !UserAction(a) && !RemoteAction(a) && TrackEnabled(t, a)
    ensures !ClusterStep(t, a).phase.Settled?
  {
  }

  lemma UserStepKeepsSettled(w: World, a: Action, k: string)
    requires DriftInv(w, k) && UserAction(a) && Enabled(w, a)
    ensures var t' := UserStep(w.tracks[k], a);
            t'.WellFormed() && SettledOk(t', RemoteAfter(w, a), w.log + EventsOf(w, a))
  {
    UserStepKeepsObserved(w, a, k);
    assert w.log + EventsOf(w, a) == w.log && RemoteAfter(w, a) == w.remote;
  }

  lemma OutsideWriteKeepsSettled(w: World, a: Action, k: string)
    requires DriftInv(w, k) && a.OutsideWrite?
    ensures SettledOk(w.tracks[k], RemoteAfter(w, a), w.log + EventsOf(w, a))
  {
    LogGrows(w.log, EventsOf(w, a));
  }

  lemma TrackAfterSettled(w: World, a: Action, k: string)
    requires DriftInv(w, k) && Enabled(w, a) && !a.OutsideWrite?
    requires TrackAfter(w.tracks[k], w.remote, a).WellFormed()
    ensures SettledOk(TrackAfter(w.tracks[k], w.remote, a), RemoteAfter(w, a), w.log + EventsOf(w, a))
  {
    if UserAction(a) {
      UserStepKeepsSettled(w, a, k);
    } else if !RemoteAction(a) {
      ClusterStepSettlesNothing(w.tracks[k], a);
    } else if !a.DeleteRemote? {
      RemoteStepSettles(w, a, k);
    }
  }

  lemma StepKeepsSettled(w: World, a: Action, k: string)
    requires DriftInv(w, k) && Enabled(w, a) && Inv(Next(w, a))
    ensures Next(w, a).tracks.Keys == {k}
    ensures SettledOk(Next(w, a).tracks[k], Next(w, a).remote, Next(w, a).log)
  {
    var w' := Next(w, a);
    assert k in w'.tracks && TrackOk(w'.tracks[k]);
    if a.OutsideWrite? {
      OutsideWriteKeepsSettled(w, a, k);
    } else {
      TrackAfterSettled(w, a, k);
    }
  }

  lemma StepKeepsLog(w: World, a: Action, k: string)
    requires DriftInv(w, k) && Enabled(w, a)
    ensures LogOk(Next(w, a).log)
  {
    EventsAreJustified(w, a, k);
    LogGrows(w.log, EventsOf(w, a));
  }

  lemma StepKeepsDriftInv(w: World, a: Action, k: string)
    requires DriftInv(w, k) && Enabled(w, a)
    ensures DriftInv(Next(w, a), k)
  {
    StepKeepsInv(w, a);
    StepKeepsObserved(w, a, k);
    StepKeepsPersisted(w, a, k);
    StepKeepsSettled(w, a, k);
    StepKeepsLog(w, a, k);
  }

  lemma {:induction false} RunKeepsDriftInv(remote: Option<OidcClient>, worlds: seq<World>,
                                            k: string, i: nat)
    requires IsRun(worlds) && worlds[0] == Start({k}, remote) && i < |worlds|
    ensures DriftInv(worlds[i], k)
  {
    if i == 0 {
      StartIsOk({k}, remote);
    } else {
      hide DriftInv, Enabled, Next;
      RunKeepsDriftInv(remote, worlds, k, i - 1);
      assert StepAt(worlds, i - 1);
      var a :| Enabled(worlds[i - 1], a) && worlds[i] == Next(worlds[i - 1], a);
      StepKeepsDriftInv(worlds[i - 1], a, k);
    }
  }

  lemma RunKeepsLog(remote: Option<OidcClient>, worlds: seq<World>, k: string, i: nat)
    requires IsRun(worlds) && worlds[0] == Start({k}, remote) && i < |worlds|
    ensures LogOk(worlds[i].log)
  {
    RunKeepsDriftInv(remote, worlds, k, i);
  }

  lemma {:induction false} DirtyHasAWitness(log: seq<Event>) returns (outside: nat)
    requires Dirty(log)
    ensures outside < |log| && log[outside] == OutsideChange
    ensures forall c :: outside < c < |log| ==> log[c] != Confirmed
  {
    if log[|log| - 1] == OutsideChange {
      outside := |log| - 1;
    } else {
      outside := DirtyHasAWitness(log[..|log| - 1]);
    }
  }

  // ---- success events are real ----

  predicate SuccessAt(v: Version, epoch: nat, generation: nat) {
    v.Object? && v.epoch == epoch && v.generation == generation && v.status.observedGeneration == generation
  }

  ghost predicate WasPersisted(w: World, k: string, epoch: nat, generation: nat) {
    k in w.tracks &&
    exists m :: 0 <= m < |w.tracks[k].history| && SuccessAt(w.tracks[k].history[m], epoch, generation)
  }

  ghost predicate SuccessesAreReal(w: World) {
    forall k, epoch, generation :: Persisted(k, epoch, generation) in w.log ==> WasPersisted(w, k, epoch, generation)
  }

  lemma HistoryOnlyGrows(w: World, a: Action, k: string)
    requires Enabled(w, a) && k in w.tracks
    ensures k in Next(w, a).tracks && w.tracks[k].history <= Next(w, a).tracks[k].history
  {
  }

  lemma WasPersistedStays(w: World, a: Action, k: string, epoch: nat, generation: nat)
    requires Enabled(w, a) && WasPersisted(w, k, epoch, generation)
    ensures WasPersisted(Next(w, a), k, epoch, generation)
  {
    HistoryOnlyGrows(w, a, k);
    hide Next, Enabled;
    var m :| 0 <= m < |w.tracks[k].history| && SuccessAt(w.tracks[k].history[m], epoch, generation);
    assert Next(w, a).tracks[k].history[m] == w.tracks[k].history[m];
  }

  lemma NewSuccessIsPersisted(w: World, a: Action, k: string, epoch: nat, generation: nat)
    requires Enabled(w, a) && Persisted(k, epoch, generation) in EventsOf(w, a)
    ensures WasPersisted(Next(w, a), k, epoch, generation)
  {
    var t' := Next(w, a).tracks[k];
    assert SuccessAt(t'.history[|t'.history| - 1], epoch, generation);
  }

  lemma StepKeepsSuccessesReal(w: World, a: Action)
    requires Enabled(w, a) && SuccessesAreReal(w)
    ensures SuccessesAreReal(Next(w, a))
  {
    assert Next(w, a).log == w.log + EventsOf(w, a);
    hide Next, Enabled, EventsOf, WasPersisted;
    forall k, epoch, generation | Persisted(k, epoch, generation) in Next(w, a).log
      ensures WasPersisted(Next(w, a), k, epoch, generation)
    {
      if Persisted(k, epoch, generation) in w.log {
        WasPersistedStays(w, a, k, epoch, generation);
      } else {
        NewSuccessIsPersisted(w, a, k, epoch, generation);
      }
    }
  }

  /** In every run, whatever was logged as a persisted success is a version in its CR's history that
      observes its own generation. */
  lemma {:induction false} LoggedSuccessesAreReal(keys: set<string>, remote: Option<OidcClient>,
                                                  worlds: seq<World>, i: nat)
    requires IsRun(worlds) && worlds[0] == Start(keys, remote) && i < |worlds|
    ensures SuccessesAreReal(worlds[i])
  {
    if i > 0 {
      hide SuccessesAreReal, Enabled, Next;
      LoggedSuccessesAreReal(keys, remote, worlds, i - 1);
      assert StepAt(worlds, i - 1);
      var a :| Enabled(worlds[i - 1], a) && worlds[i] == Next(worlds[i - 1], a);
      StepKeepsSuccessesReal(worlds[i - 1], a);
    }
  }

  /** A drift report in a justified log has its reasons before it. */
  lemma ReportHasItsReasons(log: seq<Event>, q: nat) returns (confirmed: nat, persisted: nat, outside: nat)
    requires LogOk(log) && q < |log| && log[q].DriftReported?
    ensures confirmed < persisted < q && confirmed < outside < q
    ensures log[confirmed] == Confirmed && log[outside] == OutsideChange
    ensures log[persisted] == Persisted(log[q].key, log[q].epoch, log[q].generation)
    ensures forall c :: outside < c < q ==> log[c] != Confirmed
  {
    var e := log[q];
    assert Justified(log[..q], e);
    persisted :| 0 <= persisted < q && log[..q][persisted] == Persisted(e.key, e.epoch, e.generation);
    assert Justified(log[..persisted], log[persisted]);
    confirmed :| 0 <= confirmed < persisted && log[..persisted][confirmed] == Confirmed;
    outside := DirtyHasAWitness(log[..q]);
    assert log[..q][confirmed] == Confirmed && log[..q][outside] == OutsideChange;
  }

  /** Drift reports are sound. With one CR per clientId, whenever a pass reports drift, its generation
      was persisted by an earlier success, which its history holds, that success followed a confirmed
      match of the client with its CR, and someone other than the operator changed the client after
      that match and after every later one. */
  lemma DriftReportsAreReal(remote: Option<OidcClient>, worlds: seq<World>, k: string, i: nat, q: nat)
    returns (confirmed: nat, persisted: nat, outside: nat)
    requires IsRun(worlds) && worlds[0] == Start({k}, remote) && i < |worlds|
    requires q < |worlds[i].log| && worlds[i].log[q].DriftReported?
    ensures confirmed < persisted < q && confirmed < outside < q
    ensures var log, e := worlds[i].log, worlds[i].log[q];
            && log[confirmed] == Confirmed
            && log[persisted] == Persisted(e.key, e.epoch, e.generation)
            && WasPersisted(worlds[i], e.key, e.epoch, e.generation)
            && log[outside] == OutsideChange
            && (forall c :: outside < c < q ==> log[c] != Confirmed)
  {
    hide IsRun, Start, DriftInv, WasPersisted, LogOk;
    RunKeepsLog(remote, worlds, k, i);
    confirmed, persisted, outside := ReportHasItsReasons(worlds[i].log, q);
    LoggedSuccessesAreReal({k}, remote, worlds, i);
    assert worlds[i].log[persisted] in worlds[i].log;
  }
}
