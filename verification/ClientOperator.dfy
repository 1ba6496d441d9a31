/** Reconcile of internal/controller/clavexclient_controller.go in its own sequential form, run against
    the step system: other actors may act before each of its calls, and any call may fail. */
module ClientOperator {
  import opened Prelude
  import opened Conditions
  import opened ClientSync
  import opened ClientProtocol
  import opened ClientInvariants
  import opened ClientTheorems

  /** What a pass meets, call by call: the actions others take first, the fate of the call, the
      version a read returns (None: the newest), the order lists come back in. */
  datatype Weather = Weather(
    others: nat -> seq<Action>, outcome: nat -> Outcome, readAt: nat -> Option<nat>, render: Renderer,
    credentials: bool, secretWritten: bool, held: bool, now: int, message: string)

  /** No one else acts, nothing fails and reads are current. */
  ghost predicate Calm(s: Weather) {
    && Alone(s) && s.secretWritten && !s.held
    && forall n :: s.outcome(n) == Done && s.readAt(n) == None
  }

  /** No one else acts during the pass. */
  ghost predicate Alone(s: Weather) {
    forall n :: s.others(n) == []
  }

  function ClientOf(remote: Option<Remote>): Option<OidcClient> {
    if remote.None? then None else Some(remote.value.client)
  }

  datatype Result = NoObject | AuthRetry | Removed | NothingToRemove | Synced(drifted: bool) | Error

  /** Anything that is not this CR's own pass. */
  predicate ByOthers(a: Action, key: string) {
    a.OutsideWrite? || a.key != key || UserAction(a)
  }

  predicate SamePass(t: Track, t': Track) {
    && t'.seen == t.seen && t'.phase == t.phase && t.history <= t'.history
  }

  /** A pass in flight holds a copy of an object. */
  predicate Sane(t: Track) {
    t.seen < |t.history| && (!t.phase.Idle? ==> t.Copy().Object?)
  }

  predicate AllSane(w: World) {
    forall k :: k in w.tracks ==> Sane(w.tracks[k])
  }

  lemma NextIsSane(w: World, a: Action)
    requires AllSane(w) && Enabled(w, a)
    ensures AllSane(Next(w, a)) && Next(w, a).tracks.Keys == w.tracks.Keys
  {
  }

  lemma OthersKeepPass(w: World, a: Action, key: string)
    requires ByOthers(a, key) && Enabled(w, a) && key in w.tracks
    ensures SamePass(w.tracks[key], Next(w, a).tracks[key])
  {
  }

  lemma RunGrows(worlds: seq<World>, a: Action)
    requires IsRun(worlds) && Enabled(worlds[|worlds| - 1], a)
    ensures IsRun(worlds + [Next(worlds[|worlds| - 1], a)])
  {
    var more := worlds + [Next(worlds[|worlds| - 1], a)];
    forall i | 0 <= i < |more| - 1 ensures StepAt(more, i) {
      if i < |worlds| - 1 {
        assert StepAt(worlds, i) && more[i] == worlds[i] && more[i + 1] == worlds[i + 1];
      } else {
        assert Enabled(more[i], a) && more[i + 1] == Next(more[i], a);
      }
    }
  }

  class Operator {
    var world: World
    ghost const keys: set<string>
    ghost const remote: Option<OidcClient>
    ghost var run: seq<World>
    /** How many Create and Update calls passes have sent. */
    ghost var writes: nat

    /** The world is the end of the run recorded so far. */
    ghost predicate Valid()
      reads this
    {
      IsRun(run) && run[0] == Start(keys, remote) && run[|run| - 1] == world && AllSane(world)
    }

    /** Only steps of the protocol were added to the run. */
    ghost predicate Extends(earlier: seq<World>, names: set<string>)
      reads this
    {
      Valid() && earlier <= run && world.tracks.Keys == names
    }

    constructor (keys: set<string>, remote: Option<OidcClient>)
      ensures Valid() && world == Start(keys, remote) && run == [world]
    {
      this.keys, this.remote := keys, remote;
      world := Start(keys, remote);
      run, writes := [Start(keys, remote)], 0;
    }

    method Act(a: Action)
      requires Valid() && Enabled(world, a)
      modifies this`world, this`run
      ensures Extends(old(run), old(world.tracks.Keys)) && world == Next(old(world), a)
    {
      NextIsSane(world, a);
      RunGrows(run, a);
      world := Next(world, a);
      run := run + [world];
    }

    /** Others act; a pass in flight keeps its place and its copy. */
    method Interfere(others: seq<Action>, key: string)
      requires Valid() && key in world.tracks
      modifies this`world, this`run
      ensures Extends(old(run), old(world.tracks.Keys))
      ensures SamePass(old(world.tracks[key]), world.tracks[key])
      ensures others == [] ==> world == old(world)
    {
      var i := 0;
      while i < |others|
        invariant i <= |others| && Extends(old(run), old(world.tracks.Keys))
        invariant SamePass(old(world.tracks[key]), world.tracks[key])
        invariant others == [] ==> world == old(world)
      {
        if ByOthers(others[i], key) && Enabled(world, others[i]) {
          OthersKeepPass(world, others[i], key);
          Act(others[i]);
        }
        i := i + 1;
      }
    }

    /** A read of the CR: some version no older than the last one read. */
    function Fresh(key: string, at: Option<nat>): (r: nat)
      requires key in world.tracks && Sane(world.tracks[key])
      reads this
      ensures world.tracks[key].seen <= r < |world.tracks[key].history|
    {
      var t := world.tracks[key];
      if at.Some? && t.seen <= at.value < |t.history| then at.value else |t.history| - 1
    }

    lemma GoodNow()
      requires Valid()
      ensures Inv(world)
    {
      StartIsOk(keys, remote);
      RunKeepsInv(run, |run| - 1);
    }

    lemma SuccessWillSync(a: Action)
      requires Valid() && a.PersistSuccess? && Enabled(world, a) && world.tracks[a.key].Current()
      ensures IsSynced(Written(world.tracks[a.key], a), world.tracks[a.key].phase.drifted)
    {
      GoodNow();
      SuccessIsSynced(world.tracks[a.key], a);
    }

    // ---- the calls of a pass ----

    /** Reads the CR from the cache. */
    method GetCR(key: string, at: Option<nat>) returns (found: bool)
      requires Valid() && key in world.tracks
      requires world.tracks[key].phase.Idle? || world.tracks[key].phase.Refetching?
      modifies this`world, this`run
      ensures Extends(old(run), old(world.tracks.Keys)) && world.remote == old(world.remote)
      ensures var t, t' := old(world.tracks[key]), world.tracks[key];
              && t'.history == t.history && t.seen <= t'.seen
              && (at.None? ==> t'.Current())
              && found == t'.Copy().Object?
              && t'.phase == if !found then Idle else if t.phase.Idle? then Fetched else Syncing
    {
      var r := Fresh(key, at);
      if world.tracks[key].phase.Idle? {
        Act(Get(key, r));
      } else {
        Act(GetAgain(key, r));
      }
      found := world.tracks[key].Copy().Object?;
    }

    method AddFinalizerTo(key: string, out: Outcome) returns (accepted: bool)
      requires Valid() && key in world.tracks && world.tracks[key].phase.Fetched?
      requires CopyIs(world.tracks[key], false, false)
      modifies this`world, this`run
      ensures Extends(old(run), old(world.tracks.Keys)) && world.remote == old(world.remote)
      ensures var t, t' := old(world.tracks[key]), world.tracks[key];
              && accepted == t.Accepts(out)
              && t'.phase == (if accepted then Refetching else Idle)
              && (accepted ==> t'.history == t.history + [t.Copy().(finalizer := true)] && t'.seen == t.seen)
    {
      accepted := world.tracks[key].Accepts(out);
      Act(AddFinalizer(key, out));
    }

    method DropFinalizerFrom(key: string, held: bool, out: Outcome) returns (accepted: bool)
      requires Valid() && key in world.tracks && world.tracks[key].phase.Purged?
      modifies this`world, this`run
      ensures Extends(old(run), old(world.tracks.Keys)) && world.remote == old(world.remote)
      ensures world.tracks[key].phase.Idle?
      ensures accepted == old(world.tracks[key]).Accepts(out)
      ensures accepted ==> IsReleased(world, key) && (!held ==> world.tracks[key].Last().Absent?)
    {
      accepted := world.tracks[key].Accepts(out);
      Act(DropFinalizer(key, held, out));
      GoodNow();
    }

    /** Persists an auth or reconcile error. */
    method PersistFailure(a: Action)
      requires Valid() && (a.PersistAuthError? || a.PersistError?) && a.key in world.tracks
      requires if a.PersistAuthError? then world.tracks[a.key].phase.Fetched? else world.tracks[a.key].phase.Broken?
      modifies this`world, this`run
      ensures Extends(old(run), old(world.tracks.Keys)) && world.remote == old(world.remote)
      ensures world.tracks[a.key].phase.Idle?
      ensures old(world.tracks[a.key]).Accepts(a.out) ==>
                ShowsFailure(a, old(world.tracks[a.key]).Copy(), world.tracks[a.key].Last())
    {
      FailureIsShown(world, a);
      Act(a);
    }

    method PersistSync(key: string, now: int, out: Outcome) returns (accepted: bool)
      requires Valid() && key in world.tracks && world.tracks[key].phase.Settled?
      modifies this`world, this`run
      ensures Extends(old(run), old(world.tracks.Keys)) && world.remote == old(world.remote)
      ensures world.tracks[key].phase.Idle?
      ensures accepted == old(world.tracks[key]).Accepts(out)
      ensures accepted ==> IsSynced(world.tracks[key].Last(), old(world.tracks[key]).phase.drifted)
      ensures accepted ==> SameIntent(old(world.tracks[key]).Copy(), world.tracks[key].Last())
    {
      accepted := world.tracks[key].Accepts(out);
      if accepted {
        SuccessWillSync(PersistSuccess(key, now, out));
      }
      Act(PersistSuccess(key, now, out));
    }

    method DeleteClient(key: string, out: Outcome) returns (ok: bool)
      requires Valid() && key in world.tracks && world.tracks[key].phase.Fetched?
      requires CopyIs(world.tracks[key], true, true)
      modifies this`world, this`run
      ensures Extends(old(run), old(world.tracks.Keys))
      ensures ok == (out == Done) && (ok ==> world.remote.None?)
      ensures world.tracks[key] == old(world.tracks[key]).(phase := if ok then Purged else Idle)
    {
      Act(DeleteRemote(key, out));
      ok := out == Done;
    }

    method GetClient(key: string, s: Weather, out: Outcome) returns (answer: GetAnswer)
      requires Valid() && key in world.tracks && Faithful(s.render)
      requires TrackEnabled(world.tracks[key], GetRemote(key, GetError))
      modifies this`world, this`run
      ensures Extends(old(run), old(world.tracks.Keys)) && world.remote == old(world.remote)
      ensures answer.GetError? <==> out != Done
      ensures answer.NotFound? ==> world.remote.None?
      ensures answer.Found? ==> world.remote.Some? && answer.client == s.render(world.remote.value.client)
      ensures out == Done ==>
                (world.tracks[key].phase.Settled? <==> Matches(world.remote, old(world.tracks[key]).Copy().spec))
      ensures var t := old(world.tracks[key]);
              world.tracks[key] == t.(phase :=
                if answer.GetError? then Broken
                else if answer.NotFound? then Creating
                else if UpToDate(answer.client, t.Copy().spec) then Settled(false)
                else Updating(t.Copy().status.observedGeneration == t.Copy().generation))
    {
      answer := if out != Done then GetError
                else if world.remote.None? then NotFound
                else Found(s.render(world.remote.value.client));
      if answer.Found? {
        RenderingKeepsUpToDate(world.remote.value.client, answer.client, world.tracks[key].Copy().spec);
      }
      Act(GetRemote(key, answer));
    }

    method CreateClient(key: string, out: Outcome) returns (ok: bool)
      requires Valid() && key in world.tracks && world.tracks[key].phase.Creating?
      modifies this`world, this`run, this`writes
      ensures Extends(old(run), old(world.tracks.Keys))
      ensures ok == (out == Done && old(world.remote).None?) && writes == old(writes) + 1
      ensures ClientOf(world.remote) ==
              if old(world.remote).None? && out.TookEffect()
              then Some(CreatedFrom(old(world.tracks[key]).Copy().spec)) else ClientOf(old(world.remote))
      ensures ok ==> Matches(world.remote, old(world.tracks[key]).Copy().spec)
      ensures world.tracks[key] == old(world.tracks[key]).(phase := if ok then Settled(false) else Broken)
    {
      ok := out == Done && world.remote.None?;
      writes := writes + 1;
      Act(CreateRemote(key, out));
    }

    method UpdateClient(key: string, out: Outcome) returns (ok: bool)
      requires Valid() && key in world.tracks && world.tracks[key].phase.Updating?
      modifies this`world, this`run, this`writes
      ensures Extends(old(run), old(world.tracks.Keys))
      ensures ok == (out == Done && old(world.remote).Some?) && writes == old(writes) + 1
      ensures ClientOf(world.remote) ==
              if old(world.remote).Some? && out.TookEffect()
              then Some(PatchedWith(old(world.remote).value.client, old(world.tracks[key]).Copy().spec))
              else ClientOf(old(world.remote))
      ensures ok ==> Matches(world.remote, old(world.tracks[key]).Copy().spec)
      ensures var t := old(world.tracks[key]);
              world.tracks[key] == t.(phase := if ok then Settled(t.phase.drifted) else Broken)
    {
      ok := out == Done && world.remote.Some?;
      writes := writes + 1;
      Act(UpdateRemote(key, out));
    }

    method Leave(key: string)
      requires Valid() && key in world.tracks
      modifies this`world, this`run
      ensures Extends(old(run), old(world.tracks.Keys)) && world.remote == old(world.remote)
      ensures world.tracks[key] == old(world.tracks[key]).(phase := Idle)
    {
      Act(EndPass(key));
    }

    // ---- the pass ----

    method Reconcile(key: string, s: Weather) returns (result: Result)
      requires Valid() && key in world.tracks && world.tracks[key].phase.Idle? && Faithful(s.render)
      modifies this`world, this`run, this`writes
      ensures Extends(old(run), old(world.tracks.Keys)) && world.tracks[key].phase.Idle?
      ensures result.Synced? ==> IsSynced(world.tracks[key].Last(), result.drifted)
      ensures result.Removed? ==> IsReleased(world, key)
      ensures Calm(s) ==> Settles(s, old(world.tracks[key]).Last(), world, key, result)
      ensures Calm(s) && Agrees(old(world), old(world.tracks[key]).Last()) ==>
                world.remote == old(world.remote) && writes == old(writes)
      ensures Calm(s) && result.Synced? ==>
                (result.drifted <==> Diverges(old(world.remote), old(world.tracks[key]).Last()))
    {
      hide IsRun, Next, Start, Faithful, ShowsAuthError, Matches, Diverges;
      Interfere(s.others(0), key);
      var found := GetCR(key, s.readAt(0));
      if !found {
        return NoObject;
      }
      result := Handle(key, s);
    }

    /** The part of Reconcile after the CR was fetched. */
    method Handle(key: string, s: Weather) returns (result: Result)
      requires Valid() && key in world.tracks && world.tracks[key].phase.Fetched? && Faithful(s.render)
      modifies this`world, this`run, this`writes
      ensures Extends(old(run), old(world.tracks.Keys)) && world.tracks[key].phase.Idle?
      ensures result.Synced? ==> IsSynced(world.tracks[key].Last(), result.drifted)
      ensures result.Removed? ==> IsReleased(world, key)
      ensures Calm(s) && old(world.tracks[key]).Current() ==>
                Settles(s, old(world.tracks[key]).Last(), world, key, result)
      ensures Calm(s) && Agrees(old(world), old(world.tracks[key]).Copy()) ==>
                world.remote == old(world.remote) && writes == old(writes)
      ensures Calm(s) && old(world.tracks[key]).Current() && result.Synced? ==>
                (result.drifted <==> Diverges(old(world.remote), old(world.tracks[key]).Copy()))
    {
      hide IsRun, Next, Enabled, TrackEnabled, Start, Faithful, ShowsAuthError, Matches;
      Interfere(s.others(1), key);
      var cr := world.tracks[key].Copy();
      if !s.credentials {
        PersistFailure(PersistAuthError(key, s.message, s.now, s.outcome(1)));
        return AuthRetry;
      }
      if cr.deleting {
        result := Finalize(key, s);
        return;
      }
      var finalized := EnsureFinalizer(key, s);
      if !finalized {
        return Error;
      }
      result := Sync(key, s);
    }

    /** The finalizer is persisted before anything is created remotely. */
    method EnsureFinalizer(key: string, s: Weather) returns (ok: bool)
      requires Valid() && key in world.tracks && world.tracks[key].phase.Fetched?
      requires !world.tracks[key].Copy().deleting
      modifies this`world, this`run
      ensures Extends(old(run), old(world.tracks.Keys))
      ensures if ok then TrackEnabled(world.tracks[key], GetRemote(key, GetError)) else world.tracks[key].phase.Idle?
      ensures Calm(s) && old(world.tracks[key]).Current() ==>
                ok && world.tracks[key].Current() &&
                world.tracks[key].Copy() == old(world.tracks[key]).Copy().(finalizer := true)
      ensures Calm(s) ==> world.remote == old(world.remote)
      ensures Calm(s) && old(world.tracks[key]).Copy().finalizer ==> world == old(world)
    {
      if world.tracks[key].Copy().finalizer {
        return true;
      }
      ok := AddFinalizerTo(key, s.outcome(1));
      if ok {
        Interfere(s.others(2), key);
        ok := GetCR(key, s.readAt(2));
      }
    }

    method Finalize(key: string, s: Weather) returns (result: Result)
      requires Valid() && key in world.tracks && world.tracks[key].phase.Fetched?
      requires world.tracks[key].Copy().deleting
      modifies this`world, this`run
      ensures Extends(old(run), old(world.tracks.Keys)) && world.tracks[key].phase.Idle?
      ensures result.Removed? || result.NothingToRemove? || result.Error?
      ensures result.Removed? ==> IsReleased(world, key)
      ensures Calm(s) && old(world.tracks[key]).Current() ==>
                SettlesWith(true, s.message, old(world.tracks[key]).Last(), world, key, result)
    {
      if !world.tracks[key].Copy().finalizer {
        Leave(key);
        return NothingToRemove;
      }
      var deleted := DeleteClient(key, s.outcome(1));
      if !deleted {
        return Error;
      }
      Interfere(s.others(2), key);
      var dropped := DropFinalizerFrom(key, s.held, s.outcome(2));
      result := if dropped then Removed else Error;
    }

    /** Creates or updates the remote client; the pass's copy is all it reads of the CR. */
    method ReconcileClient(key: string, s: Weather) returns (ok: bool, created: bool)
      requires Valid() && key in world.tracks && Faithful(s.render)
      requires TrackEnabled(world.tracks[key], GetRemote(key, GetError))
      modifies this`world, this`run, this`writes
      ensures Extends(old(run), old(world.tracks.Keys))
      ensures SamePass(old(world.tracks[key]).(phase := world.tracks[key].phase), world.tracks[key])
      ensures if ok then world.tracks[key].phase.Settled? else world.tracks[key].phase.Broken?
      ensures Calm(s) ==> ok && Matches(world.remote, old(world.tracks[key]).Copy().spec)
      ensures Alone(s) && Matches(old(world.remote), old(world.tracks[key]).Copy().spec) ==>
                world.remote == old(world.remote) && writes == old(writes)
      ensures Alone(s) && ok ==>
                var c, was := old(world.tracks[key]).Copy(), old(world.remote);
                var differs := was.Some? &&
                               (was.value.client.name != c.spec.name
                                || was.value.client.isActive != c.spec.isActive
                                || multiset(was.value.client.redirectUris) != multiset(c.spec.redirectUris)
                                || multiset(was.value.client.postLogoutRedirectUris) !=
                                   multiset(c.spec.postLogoutRedirectUris)
                                || multiset(was.value.client.grantTypes) != multiset(c.spec.grantTypes));
                && writes == old(writes) + (if was.None? || differs then 1 else 0)
                && (world.tracks[key].phase.drifted <==> differs && c.status.observedGeneration == c.generation)
                && HasFieldsOf(world.remote, c.spec) && (created <==> was.None?)
      ensures Alone(s) && ok ==>
                (world.tracks[key].phase.drifted <==> Diverges(old(world.remote), old(world.tracks[key]).Copy()))
      ensures Alone(s) ==>
                var c := old(world.tracks[key]).Copy();
                var p := PassSpec(ClientOf(old(world.remote)), c.spec, c.status.observedGeneration == c.generation,
                                  s.render, s.outcome(3), s.outcome(4));
                && ok == p.ok && (ok && created) == p.created && ClientOf(world.remote) == p.stored
                && writes == old(writes) + p.writes
                && (ok ==> world.tracks[key].phase == Settled(p.drifted))
                && world.tracks[key].history == old(world.tracks[key]).history
    {
      hide IsRun, Next, Enabled, Start, PassSpec, UpToDate, Matches, Diverges;
      ok, created := GetThenWrite(key, s);
      if ok {
        PassMeansFields(ClientOf(old(world.remote)), old(world.tracks[key]).Copy().spec,
                        old(world.tracks[key]).Copy().status.observedGeneration
                        == old(world.tracks[key]).Copy().generation,
                        s.render, s.outcome(3), s.outcome(4));
      }
    }

    method GetThenWrite(key: string, s: Weather) returns (ok: bool, created: bool)
      requires Valid() && key in world.tracks && Faithful(s.render)
      requires TrackEnabled(world.tracks[key], GetRemote(key, GetError))
      modifies this`world, this`run, this`writes
      ensures Extends(old(run), old(world.tracks.Keys))
      ensures SamePass(old(world.tracks[key]).(phase := world.tracks[key].phase), world.tracks[key])
      ensures if ok then world.tracks[key].phase.Settled? else world.tracks[key].phase.Broken?
      ensures Calm(s) ==> ok && Matches(world.remote, old(world.tracks[key]).Copy().spec)
      ensures Alone(s) && Matches(old(world.remote), old(world.tracks[key]).Copy().spec) ==>
                world.remote == old(world.remote) && writes == old(writes)
      ensures Alone(s) && ok ==>
                (world.tracks[key].phase.drifted <==> Diverges(old(world.remote), old(world.tracks[key]).Copy()))
      ensures Alone(s) ==>
                var c := old(world.tracks[key]).Copy();
                var p := PassSpec(ClientOf(old(world.remote)), c.spec, c.status.observedGeneration == c.generation,
                                  s.render, s.outcome(3), s.outcome(4));
                && ok == p.ok && (ok && created) == p.created && ClientOf(world.remote) == p.stored
                && writes == old(writes) + p.writes
                && (ok ==> world.tracks[key].phase == Settled(p.drifted))
                && world.tracks[key].history == old(world.tracks[key]).history
    {
      hide IsRun, Next, Enabled, Start, Faithful;
      Interfere(s.others(3), key);
      var answer := GetClient(key, s, s.outcome(3));
      created := answer.NotFound?;
      if answer.GetError? {
        return false, false;
      }
      if answer.Found? && UpToDate(answer.client, world.tracks[key].Copy().spec) {
        return true, false;
      }
      ok := WriteClient(key, s);
    }

    method WriteClient(key: string, s: Weather) returns (ok: bool)
      requires Valid() && key in world.tracks
      requires world.tracks[key].phase.Creating? || world.tracks[key].phase.Updating?
      modifies this`world, this`run, this`writes
      ensures Extends(old(run), old(world.tracks.Keys))
      ensures SamePass(old(world.tracks[key]).(phase := world.tracks[key].phase), world.tracks[key])
      ensures if ok then world.tracks[key].phase.Settled? else world.tracks[key].phase.Broken?
      ensures ok ==> Matches(world.remote, old(world.tracks[key]).Copy().spec)
      ensures Alone(s) ==> world.tracks[key].history == old(world.tracks[key]).history
      ensures Alone(s) && (old(world.remote).None? <==> old(world.tracks[key]).phase.Creating?) ==>
                var spec, was, out := old(world.tracks[key]).Copy().spec, old(world.remote), s.outcome(4);
                && ok == (out == Done)
                && ClientOf(world.remote) ==
                   if !out.TookEffect() then ClientOf(was)
                   else Some(if was.None? then CreatedFrom(spec) else PatchedWith(was.value.client, spec))
      ensures var was := old(world.tracks[key]).phase;
              ok ==> world.tracks[key].phase == Settled(was.Updating? && was.drifted)
      ensures writes == old(writes) + 1
    {
      Interfere(s.others(4), key);
      if world.tracks[key].phase.Creating? {
        ok := CreateClient(key, s.outcome(4));
      } else {
        ok := UpdateClient(key, s.outcome(4));
      }
    }

    method Sync(key: string, s: Weather) returns (result: Result)
      requires Valid() && key in world.tracks && Faithful(s.render)
      requires TrackEnabled(world.tracks[key], GetRemote(key, GetError))
      modifies this`world, this`run, this`writes
      ensures Extends(old(run), old(world.tracks.Keys)) && world.tracks[key].phase.Idle?
      ensures result.Synced? || result.Error?
      ensures result.Synced? ==> IsSynced(world.tracks[key].Last(), result.drifted)
      ensures Calm(s) && old(world.tracks[key]).Current() ==>
                result.Synced? && Matches(world.remote, old(world.tracks[key]).Last().spec) &&
                SameIntent(old(world.tracks[key]).Last(), world.tracks[key].Last())
      ensures Calm(s) && Matches(old(world.remote), old(world.tracks[key]).Copy().spec) ==>
                world.remote == old(world.remote) && writes == old(writes)
      ensures Calm(s) && result.Synced? ==>
                (result.drifted <==> Diverges(old(world.remote), old(world.tracks[key]).Copy()))
    {
      hide IsRun, Next, Enabled, TrackEnabled, Start, Faithful, IsSynced, PassSpec, Matches, Diverges;
      var ok, created := ReconcileClient(key, s);
      result := Conclude(key, s, ok, created);
    }

    /** Persists the error, or the generated secret and then the success status. */
    method Conclude(key: string, s: Weather, reconciled: bool, created: bool) returns (result: Result)
      requires Valid() && key in world.tracks
      requires if reconciled then world.tracks[key].phase.Settled? else world.tracks[key].phase.Broken?
      modifies this`world, this`run
      ensures Extends(old(run), old(world.tracks.Keys)) && world.tracks[key].phase.Idle?
      ensures result.Synced? ==> reconciled && IsSynced(world.tracks[key].Last(), result.drifted)
      ensures result.Synced? || result.Error?
      ensures result.Synced? ==> result.drifted == old(world.tracks[key]).phase.drifted
      ensures result.Synced? && created ==> s.secretWritten
      ensures Alone(s) ==> world.remote == old(world.remote)
      ensures Alone(s) && old(world.tracks[key]).Accepts(s.outcome(5)) ==>
                if !reconciled then ShowsError(world.tracks[key].Last(), s.message)
                else if created && !s.secretWritten then world.tracks[key].history == old(world.tracks[key]).history
                else result.Synced? && SameIntent(old(world.tracks[key]).Copy(), world.tracks[key].Last())
    {
      if !reconciled {
        Interfere(s.others(5), key);
        PersistFailure(PersistError(key, s.message, s.now, s.outcome(5)));
        return Error;
      }
      if created && !s.secretWritten {
        Leave(key);
        return Error;
      }
      Interfere(s.others(5), key);
      var drifted := world.tracks[key].phase.drifted;
      var persisted := PersistSync(key, s.now, s.outcome(5));
      result := if persisted then Synced(drifted) else Error;
    }
  }

  /** The live client, field by field. */
  predicate HasFieldsOf(remote: Option<Remote>, spec: ClientSpec) {
    && remote.Some?
    && var c := remote.value.client;
       && c.name == spec.name && c.isActive == spec.isActive
       && multiset(c.redirectUris) == multiset(spec.redirectUris)
       && multiset(c.postLogoutRedirectUris) == multiset(spec.postLogoutRedirectUris)
       && multiset(c.grantTypes) == multiset(spec.grantTypes)
  }

  /** A later version asks for the same. */
  predicate SameIntent(v: Version, v': Version) {
    v.Object? && v'.Object? && v'.spec == v.spec && v'.deleting == v.deleting
  }

  /** The live client differs although this generation was already observed. */
  predicate Diverges(remote: Option<Remote>, v: Version) {
    v.Object? && v.status.observedGeneration == v.generation && remote.Some? && !Matches(remote, v.spec)
  }

  /** A live CR whose client matches it: nothing is left to do remotely. */
  predicate Agrees(w: World, v: Version) {
    Covered(v) && !v.deleting && Matches(w.remote, v.spec)
  }

  /** The persisted object reports success for its own generation, under its finalizer. */
  predicate IsSynced(v: Version, drifted: bool) {
    Covered(v) && ShowsSuccess(v.status, v.generation, drifted)
  }

  predicate ShowsAuthError(v: Version, message: string) {
    v.Object? && Shows(v.status, "Ready", StatusFalse, "AuthSecretError", message, v.generation)
  }

  predicate ShowsError(v: Version, message: string) {
    && v.Object?
    && Shows(v.status, "Ready", StatusFalse, "ReconcileError", message, v.generation)
    && Shows(v.status, "Synced", StatusFalse, "ReconcileError", message, v.generation)
  }

  /** What an error status says, and what it leaves as it was. */
  predicate ShowsFailure(a: Action, c: Version, v: Version)
    requires (a.PersistAuthError? || a.PersistError?) && c.Object?
  {
    && v.Object? && v.status.observedGeneration == c.status.observedGeneration
    && (if a.PersistAuthError?
        then ShowsAuthError(v, a.message) && Find(v.status.conditions, "Synced") == Find(c.status.conditions, "Synced")
        else ShowsError(v, a.message))
  }

  lemma FailureIsShown(w: World, a: Action)
    requires (a.PersistAuthError? || a.PersistError?) && Enabled(w, a)
    ensures ShowsFailure(a, w.tracks[a.key].Copy(), Written(w.tracks[a.key], a))
  {
    var c := w.tracks[a.key].Copy();
    if a.PersistAuthError? {
      AuthErrorTouchesReadyOnly(c.status, a.message, c.generation, a.now, "Synced");
    } else {
      ErrorIsCoherent(c.status, a.message, c.generation, a.now);
    }
  }

  lemma SuccessIsSynced(t: Track, a: Action)
    requires TrackOk(t) && a.PersistSuccess? && TrackEnabled(t, a) && t.Current()
    ensures IsSynced(Written(t, a), t.phase.drifted)
  {
    SuccessIsReady(t.Copy().status, t.Copy().generation, t.phase.drifted, a.now);
    assert Covered(t.Last());
  }

  /** The CR has let go: no finalizer is persisted, and no remote client of its making remains. */
  predicate IsReleased(w: World, key: string) {
    && key in w.tracks && w.tracks[key].seen < |w.tracks[key].history|
    && !Covered(w.tracks[key].Last())
    && (w.remote.Some? ==> w.remote.value.creator != Some(key))
  }

  /** What an undisturbed pass achieves from a CR in state v. */
  ghost predicate Settles(s: Weather, v: Version, w: World, key: string, result: Result)
    requires key in w.tracks && w.tracks[key].WellFormed()
  {
    SettlesWith(s.credentials, s.message, v, w, key, result)
  }

  ghost predicate SettlesWith(credentials: bool, message: string, v: Version, w: World, key: string, result: Result)
    requires key in w.tracks && w.tracks[key].WellFormed()
  {
    if v.Absent? then result == NoObject
    else if !credentials then result == AuthRetry && ShowsAuthError(w.tracks[key].Last(), message)
    else if v.deleting && v.finalizer then result == Removed && w.remote.None? && w.tracks[key].Last().Absent?
    else if v.deleting then result == NothingToRemove
    else
      var v' := w.tracks[key].Last();
      result.Synced? && IsSynced(v', result.drifted) && SameIntent(v, v') && Agrees(w, v')
  }
}
