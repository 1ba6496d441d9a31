/** The reconcile and finalizer protocol of ClavexClient as a step system
    (Reconcile in internal/controller/clavexclient_controller.go).

    The world holds every CR name that carries one clientId in one org, the remote client under that
    clientId, and a log. A CR's history lists all versions its API object ever had; an index into it
    plays the part of resourceVersion. `seen` is the newest version the operator has read: reads may
    be stale, never older than an earlier one. One pass per CR name is in flight at a time, passes of
    different names interleave freely, and every API call may fail or take effect and still fail. */
module ClientProtocol {
  import opened Prelude
  import opened Conditions
  import opened ClientSync

  const READY := "Ready"
  const SYNCED := "Synced"

  datatype Status = Status(observedGeneration: nat, conditions: seq<Condition>)

  /** `epoch` tells incarnations of one name apart, and the gaps between them. */
  datatype Version =
    | Absent(epoch: nat)
    | Object(epoch: nat, generation: nat, spec: ClientSpec, finalizer: bool, deleting: bool, status: Status)

  /** Where a pass stands: the API call it makes next. */
  datatype Phase =
    | Idle
    | Fetched                     // the CR was read and its credentials resolved
    | Purged                      // the remote delete was answered; the finalizer goes next
    | Refetching                  // the finalizer was added; the CR is read again
    | Syncing                     // the CR was read again; Clients.Get comes next
    | Creating
    | Updating(drifted: bool)
    | Settled(drifted: bool)      // success; the status is persisted next
    | Broken                      // reconcile error; the status is persisted next

  datatype Track = Track(history: seq<Version>, seen: nat, phase: Phase) {
    ghost predicate WellFormed() { seen < |history| }
    function Last(): Version requires WellFormed() { history[|history| - 1] }
    /** The copy of the CR that the pass works on. */
    function Copy(): Version requires WellFormed() { history[seen] }
    function Push(v: Version): Track { this.(history := history + [v]) }
    /** An update carrying the copy's resourceVersion is accepted only when the copy is current. */
    predicate Current() { seen == |history| - 1 }
    function Submit(v: Version, out: Outcome): Track {
      if Current() && out.TookEffect() then Push(v) else this
    }
    predicate Accepts(out: Outcome) { Current() && out == Done }
  }

  /** `creator` names the CR whose pass created the client, None when someone else did. */
  datatype Remote = Remote(client: OidcClient, creator: Option<string>)

  datatype Event =
    | OutsideChange                                            // someone else changed the remote client
    | Confirmed                                                // a pass saw or made the client match its CR
    | Persisted(key: string, epoch: nat, generation: nat)      // a pass wrote a success status
    | DriftReported(key: string, epoch: nat, generation: nat)

  datatype World = World(tracks: map<string, Track>, remote: Option<Remote>, log: seq<Event>)

  datatype Action =
    // users of the cluster
    | UserCreate(key: string, spec: ClientSpec, finalizer: bool)
    | UserEdit(key: string, spec: ClientSpec)
    | UserDelete(key: string, held: bool)       // held: some other finalizer keeps the object
    | OtherFinalizersDone(key: string)
    // other clients of the Admin API
    | OutsideWrite(client: Option<OidcClient>)
    // the operator's calls
    | Get(key: string, at: nat)
    | EndPass(key: string)                      // any return that changes nothing further
    | PersistAuthError(key: string, message: string, now: int, out: Outcome)
    | DeleteRemote(key: string, out: Outcome)
    | DropFinalizer(key: string, held: bool, out: Outcome)
    | AddFinalizer(key: string, out: Outcome)
    | GetAgain(key: string, at: nat)
    | GetRemote(key: string, answer: GetAnswer)
    | CreateRemote(key: string, out: Outcome)
    | UpdateRemote(key: string, out: Outcome)
    | PersistError(key: string, message: string, now: int, out: Outcome)
    | PersistSuccess(key: string, now: int, out: Outcome)

  // ---- statuses ----

  function SetFalse(s: Status, kind: string, reason: string, message: string, generation: nat, now: int): Status {
    s.(conditions := Upsert(s.conditions, Call(kind, StatusFalse, reason, message, generation, now)))
  }

  function AuthErrorStatus(s: Status, generation: nat, message: string, now: int): Status {
    SetFalse(s, READY, "AuthSecretError", message, generation, now)
  }

  function ErrorStatus(s: Status, generation: nat, message: string, now: int): Status {
    SetFalse(SetFalse(s, READY, "ReconcileError", message, generation, now),
             SYNCED, "ReconcileError", message, generation, now)
  }

  function ReadyCall(generation: nat, now: int): Call {
    Call(READY, StatusTrue, "Synced", "Client is in sync with the Admin API", generation, now)
  }

  function SyncedCall(generation: nat, drifted: bool, now: int): Call {
    if drifted
    then Call(SYNCED, StatusTrue, "DriftCorrected",
              "Live client had diverged from spec out-of-band; corrected to match spec", generation, now)
    else Call(SYNCED, StatusTrue, "Synced", "Client is in sync with the Admin API", generation, now)
  }

  function SuccessStatus(s: Status, generation: nat, drifted: bool, now: int): Status {
    Status(generation,
           Upsert(Upsert(s.conditions, ReadyCall(generation, now)), SyncedCall(generation, drifted, now)))
  }

  // ---- steps ----

  predicate CopyIs(t: Track, deleting: bool, finalizer: bool) {
    t.seen < |t.history| && t.Copy().Object? && t.Copy().deleting == deleting && t.Copy().finalizer == finalizer
  }

  /** The answer Clients.Get may give: an error, or the truth up to list order. */
  predicate Truthful(answer: GetAnswer, remote: Option<Remote>) {
    match answer
    case GetError => true
    case NotFound => remote.None?
    case Found(c) => remote.Some? && Renders(remote.value.client, c)
  }

  predicate Enabled(w: World, a: Action) {
    a.OutsideWrite? ||
    (a.key in w.tracks && TrackEnabled(w.tracks[a.key], a) && (a.GetRemote? ==> Truthful(a.answer, w.remote)))
  }

  function Next(w: World, a: Action): World
    requires Enabled(w, a)
  {
    World(if a.OutsideWrite? then w.tracks else w.tracks[a.key := TrackAfter(w.tracks[a.key], w.remote, a)],
          RemoteAfter(w, a),
          w.log + EventsOf(w, a))
  }

  predicate UserAction(a: Action) {
    a.UserCreate? || a.UserEdit? || a.UserDelete? || a.OtherFinalizersDone?
  }

  predicate RemoteAction(a: Action) {
    a.DeleteRemote? || a.GetRemote? || a.CreateRemote? || a.UpdateRemote?
  }

  predicate TrackEnabled(t: Track, a: Action) {
    t.seen < |t.history| &&
    match a
    case OutsideWrite(_) => false
    case UserCreate(_, _, _) => t.Last().Absent?
    case UserEdit(_, _) => t.Last().Object?
    case UserDelete(_, _) => t.Last().Object? && !t.Last().deleting
    case OtherFinalizersDone(_) => t.Last().Object? && t.Last().deleting && !t.Last().finalizer
    case Get(_, at) => t.phase.Idle? && t.seen <= at < |t.history|
    case EndPass(_) => true
    case PersistAuthError(_, _, _, _) => t.phase.Fetched? && t.Copy().Object?
    case DeleteRemote(_, _) => t.phase.Fetched? && CopyIs(t, true, true)
    case DropFinalizer(_, _, _) => t.phase.Purged? && t.Copy().Object?
    case AddFinalizer(_, _) => t.phase.Fetched? && CopyIs(t, false, false)
    case GetAgain(_, at) => t.phase.Refetching? && t.seen <= at < |t.history|
    case GetRemote(_, _) => (t.phase.Syncing? && t.Copy().Object?) || (t.phase.Fetched? && CopyIs(t, false, true))
    case CreateRemote(_, _) => t.phase.Creating? && t.Copy().Object?
    case UpdateRemote(_, _) => t.phase.Updating? && t.Copy().Object?
    case PersistError(_, _, _, _) => t.phase.Broken? && t.Copy().Object?
    case PersistSuccess(_, _, _) => t.phase.Settled? && t.Copy().Object?
  }

  function TrackAfter(t: Track, remote: Option<Remote>, a: Action): Track
    requires TrackEnabled(t, a)
  {
    if UserAction(a) then UserStep(t, a)
    else if RemoteAction(a) then t.(phase := PhaseAfter(t, remote, a))
    else ClusterStep(t, a)
  }

  /** What users do to a CR. */
  function UserStep(t: Track, a: Action): Track
    requires UserAction(a) && TrackEnabled(t, a)
  {
    var v := t.Last();
    match a
    case UserCreate(_, spec, finalizer) =>
      t.Push(Object(|t.history|, 1, spec, finalizer, false, Status(0, [])))
    case UserEdit(_, spec) =>
      t.Push(v.(spec := spec, generation := if spec == v.spec then v.generation else v.generation + 1))
    case UserDelete(_, held) =>
      // Marking for deletion is itself a new generation.
      t.Push(if v.finalizer || held then v.(deleting := true, generation := v.generation + 1)
             else Absent(|t.history|))
    case OtherFinalizersDone(_) => t.Push(Absent(|t.history|))
  }

  predicate WriteAction(a: Action) {
    a.PersistAuthError? || a.DropFinalizer? || a.AddFinalizer? || a.PersistError? || a.PersistSuccess?
  }

  /** The version an update of the operator asks for. */
  function Written(t: Track, a: Action): Version
    requires WriteAction(a) && TrackEnabled(t, a)
  {
    var c := t.Copy();
    match a
    case PersistAuthError(_, message, now, _) =>
      c.(status := AuthErrorStatus(c.status, c.generation, message, now))
    case DropFinalizer(_, held, _) =>
      // The object goes with its last finalizer.
      if held then c.(finalizer := false) else Absent(|t.history|)
    case AddFinalizer(_, _) => c.(finalizer := true)
    case PersistError(_, message, now, _) =>
      c.(status := ErrorStatus(c.status, c.generation, message, now))
    case PersistSuccess(_, now, _) =>
      c.(status := SuccessStatus(c.status, c.generation, t.phase.drifted, now))
  }

  /** The operator's calls to the cluster. */
  function ClusterStep(t: Track, a: Action): Track
    requires !UserAction(a) && !RemoteAction(a) && TrackEnabled(t, a)
  {
    if WriteAction(a) then
      t.Submit(Written(t, a), a.out).(phase := if a.AddFinalizer? && t.Accepts(a.out) then Refetching else Idle)
    else
      match a
      case Get(_, at) => t.(seen := at, phase := if t.history[at].Object? then Fetched else Idle)
      case GetAgain(_, at) => t.(seen := at, phase := if t.history[at].Object? then Syncing else Idle)
      case EndPass(_) => t.(phase := Idle)
  }

  /** Out-of-band drift: the live client differs although this generation was already observed. */
  predicate Drifted(c: Version, answer: GetAnswer) {
    c.Object? && answer.Found? && !UpToDate(answer.client, c.spec) &&
    c.status.observedGeneration == c.generation
  }

  /** Where a pass goes after the operator's calls to the Admin API. */
  function PhaseAfter(t: Track, remote: Option<Remote>, a: Action): Phase
    requires RemoteAction(a) && TrackEnabled(t, a)
  {
    match a
    case DeleteRemote(_, out) => if out == Done then Purged else Idle   // not-found counts as deleted
    case GetRemote(_, GetError) => Broken
    case GetRemote(_, NotFound) => Creating
    case GetRemote(_, Found(live)) =>
      if UpToDate(live, t.Copy().spec) then Settled(false) else Updating(Drifted(t.Copy(), a.answer))
    case CreateRemote(_, out) => if remote.None? && out == Done then Settled(false) else Broken
    case UpdateRemote(_, out) => if remote.Some? && out == Done then Settled(t.phase.drifted) else Broken
  }

  function RemoteAfter(w: World, a: Action): Option<Remote>
    requires Enabled(w, a)
  {
    match a
    case OutsideWrite(None) => None
    case OutsideWrite(Some(client)) =>
      Some(Remote(client, if w.remote.Some? then w.remote.value.creator else None))
    case DeleteRemote(_, out) => if out.TookEffect() then None else w.remote
    case CreateRemote(key, out) =>
      if w.remote.None? && out.TookEffect()
      then Some(Remote(CreatedFrom(w.tracks[key].Copy().spec), Some(key))) else w.remote
    case UpdateRemote(key, out) =>
      if w.remote.Some? && out.TookEffect()
      then Some(w.remote.value.(client := PatchedWith(w.remote.value.client, w.tracks[key].Copy().spec)))
      else w.remote
    case _ => w.remote
  }

  function EventsOf(w: World, a: Action): seq<Event>
    requires Enabled(w, a)
  {
    if a.OutsideWrite? then (if RemoteAfter(w, a) == w.remote then [] else [OutsideChange])
    else
      var t := w.tracks[a.key];
      var c := t.Copy();
      if RemoteAction(a) && !a.DeleteRemote? && PhaseAfter(t, w.remote, a).Settled? then [Confirmed]
      else if a.GetRemote? && Drifted(c, a.answer) then [DriftReported(a.key, c.epoch, c.generation)]
      else if a.PersistSuccess? && t.Current() && a.out.TookEffect() then [Persisted(a.key, c.epoch, c.generation)]
      else []
  }

  // ---- runs ----

  function Start(keys: set<string>, remote: Option<OidcClient>): World {
    World(map k | k in keys :: Track([Absent(0)], 0, Idle),
          if remote.None? then None else Some(Remote(remote.value, None)), [])
  }

  ghost predicate StepAt(worlds: seq<World>, i: nat)
    requires i + 1 < |worlds|
  {
    exists a :: Enabled(worlds[i], a) && worlds[i + 1] == Next(worlds[i], a)
  }

  /** A run: all interleavings, faults and stale reads are choices of actions. */
  ghost predicate IsRun(worlds: seq<World>) {
    worlds != [] && forall i :: 0 <= i < |worlds| - 1 ==> StepAt(worlds, i)
  }
}
